/** helpers/k3d.go: reaching a root shell in a pod of a k3d cluster.

    k3d runs every Kubernetes node as a Docker container, so the tool runs
    `docker exec -ti <node> sh -c "runc … exec -t -u 0 <container id> <cmd>"`:
    docker reaches the node, and runc, inside the node, enters the pod's
    container as uid 0. Running a process is modelled by the `Invocation` it
    would start. */
module HelpersK3d {
  import opened GoStrings
  import opened Kube

  /** Node names of a k3d cluster start with this. */
  const K3dPrefix: string := "k3d"

  /** The scheme containerd puts in front of the ids it reports. */
  const ContainerdScheme: string := "containerd://"

  /** The runc call, up to the container id, used to enter a container of the node. */
  const RuncExec: string := "runc --root /run/containerd/runc/k8s.io/ exec -t -u 0 "

  /** Between pod and container in a "pod: container" identifier. */
  const Separator: string := ": "

  /** A process that would be started: program and argument vector. */
  datatype Invocation = Invocation(program: string, args: seq<string>)

  // ------------------------------------------------------- cluster classifier

  predicate IsK3dNode(n: Node) {
    HasPrefix(n.name, K3dPrefix)
  }

  /** Some node of the cluster is a k3d node. */
  predicate HasK3dNode(nodes: seq<Node>) {
    exists n :: n in nodes && IsK3dNode(n)
  }

  /** IsK3d: a failed node listing gives (false, err); otherwise the answer
      is whether some node name starts with "k3d". */
  method IsK3d(k: Client) returns (isK3d: bool, err: Option<Error>)
    ensures GetNodes(k).Err? ==> !isK3d && err == Some(GetNodes(k).error)
    ensures GetNodes(k).Ok? ==> err == None && (isK3d <==> HasK3dNode(GetNodes(k).value))
  {
    var nodes := GetNodes(k);
    if nodes.Err? {
      return false, Some(nodes.error);
    }
    var i := 0;
    while i < |nodes.value|
      invariant 0 <= i <= |nodes.value|
      invariant forall j :: 0 <= j < i ==> !IsK3dNode(nodes.value[j])
    {
      if HasPrefix(nodes.value[i].name, K3dPrefix) {
        assert IsK3dNode(nodes.value[i]);
        return true, None;
      }
      i := i + 1;
    }
    return false, None;
  }

  /** The classification does not depend on the order the nodes are listed in. */
  lemma HasK3dNodeOrderIndependent(a: seq<Node>, b: seq<Node>)
    requires multiset(a) == multiset(b)
    ensures HasK3dNode(a) <==> HasK3dNode(b)
  {
    if HasK3dNode(a) {
      var n :| n in a && IsK3dNode(n);
      assert n in multiset(b);
    }
    if HasK3dNode(b) {
      var n :| n in b && IsK3dNode(n);
      assert n in multiset(a);
    }
  }

  // --------------------------------------------------------- target locator

  /** The ContainerID of the first status named `containerName`, or "" when
      there is none. */
  function ContainerIDOf(statuses: seq<ContainerStatus>, containerName: string): string {
    if |statuses| == 0 then ""
    else if statuses[0].name == containerName then statuses[0].containerID
    else ContainerIDOf(statuses[1..], containerName)
  }

  /** The first status with the requested name decides; later ones are ignored. */
  lemma {:induction false} ContainerIDOfFirstMatch(statuses: seq<ContainerStatus>, containerName: string, i: int)
    requires 0 <= i < |statuses| && statuses[i].name == containerName
    requires forall j :: 0 <= j < i ==> statuses[j].name != containerName
    ensures ContainerIDOf(statuses, containerName) == statuses[i].containerID
  {
    if i > 0 {
      ContainerIDOfFirstMatch(statuses[1..], containerName, i - 1);
    }
  }

  /** With no status of that name the id is empty. */
  lemma {:induction false} ContainerIDOfNoMatch(statuses: seq<ContainerStatus>, containerName: string)
    requires forall j :: 0 <= j < |statuses| ==> statuses[j].name != containerName
    ensures ContainerIDOf(statuses, containerName) == ""
  {
    if |statuses| > 0 {
      ContainerIDOfNoMatch(statuses[1..], containerName);
    }
  }

  /** The error ExecInNamespacePodContainer builds when the container has no id. */
  function ContainerNotFound(containerName: string, podName: string): Error {
    Failed("container " + containerName + " not found in pod " + podName)
  }

  // -------------------------------------------------------- command builder

  /** The runc command line run inside the node, for an id without scheme. */
  function RuncCommand(containerID: string, cmd: seq<string>): string {
    RuncExec + containerID + " " + Join(cmd, " ")
  }

  /** The command vector run in the node: the runc line under `sh -c`, with
      the containerd scheme taken off the id. */
  function ContainerCommand(containerID: string, cmd: seq<string>): seq<string> {
    ["sh", "-c", RuncCommand(TrimPrefix(containerID, ContainerdScheme), cmd)]
  }

  /** The scheme is taken off exactly when the id starts with it. */
  lemma ContainerCommandStripsScheme(id: string, cmd: seq<string>)
    ensures ContainerCommand(ContainerdScheme + id, cmd) == ["sh", "-c", RuncCommand(id, cmd)]
    ensures !HasPrefix(id, ContainerdScheme) ==> ContainerCommand(id, cmd) == ["sh", "-c", RuncCommand(id, cmd)]
  {
    assert (ContainerdScheme + id)[..|ContainerdScheme|] == ContainerdScheme;
    assert (ContainerdScheme + id)[|ContainerdScheme|..] == id;
  }

  /** The docker exec that runs `cmds` in the node container `containerName`. */
  function DockerExec(containerName: string, cmds: seq<string>): Invocation {
    Invocation("docker", ["exec", "-ti", containerName] + cmds)
  }

  /** ExecIntoDockerContainer: runs `docker exec -ti <containerName> <cmds…>`.
      A failing docker ends the process, so the call only ever returns nil. */
  method ExecIntoDockerContainer(containerName: string, cmds: seq<string>) returns (r: Result<Invocation>)
    ensures r.Ok? && r.value.program == "docker"
    ensures |r.value.args| == 3 + |cmds|
    ensures r.value.args[..3] == ["exec", "-ti", containerName] && r.value.args[3..] == cmds
    ensures r == Ok(DockerExec(containerName, cmds))
  {
    var prg := "docker";
    var arg1 := "exec";
    var arg2 := "-ti";
    var arg3 := containerName;
    var args := [arg1, arg2, arg3];
    args := args + cmds;
    assert args[3..] == cmds;
    return Ok(Invocation(prg, args));
  }

  // --------------------------------------------------------------- pipeline

  /** What ExecInNamespacePodContainer does: the first failure among pod
      lookup, node lookup and container resolution, or the docker exec of the
      runc command on the pod's node. */
  function ExecOutcome(k: Client, namespace: string, podName: string, containerName: string, cmd: seq<string>): Result<Invocation> {
    match GetPodByNamespaceAndName(k, namespace, podName)
    case Err(e) => Err(e)
    case Ok(pod) =>
      match GetNodeOfPod(k, pod)
      case Err(e) => Err(e)
      case Ok(node) =>
        var id := ContainerIDOf(pod.containerStatuses, containerName);
        if id == "" then Err(ContainerNotFound(containerName, podName))
        else Ok(DockerExec(node.name, ContainerCommand(id, cmd)))
  }

  /** ExecInNamespacePodContainer */
  method ExecInNamespacePodContainer(k: Client, namespace: string, podName: string, containerName: string, cmd: seq<string>)
    returns (r: Result<Invocation>)
    ensures r == ExecOutcome(k, namespace, podName, containerName, cmd)
  {
    var pod := GetPodByNamespaceAndName(k, namespace, podName);
    if pod.Err? {
      return Err(pod.error);
    }
    var nodeOfPod := GetNodeOfPod(k, pod.value);
    if nodeOfPod.Err? {
      return Err(nodeOfPod.error);
    }
    var statuses := pod.value.containerStatuses;
    var containerID := "";
    var i := 0;
    while i < |statuses|
      invariant 0 <= i <= |statuses|
      invariant containerID == ""
      invariant ContainerIDOf(statuses[i..], containerName) == ContainerIDOf(statuses, containerName)
    {
      assert statuses[i..][0] == statuses[i] && statuses[i..][1..] == statuses[i + 1..];
      if statuses[i].name == containerName {
        containerID := statuses[i].containerID;
        break;
      }
      i := i + 1;
    }
    assert containerID == ContainerIDOf(statuses, containerName);
    if containerID == "" {
      return Err(ContainerNotFound(containerName, podName));
    }
    var rawID := containerID;
    containerID := TrimPrefix(containerID, ContainerdScheme);
    var runCCmd := RuncExec + containerID + " " + Join(cmd, " ");
    var containerCmd := ["sh", "-c", runCCmd];
    assert containerCmd == ContainerCommand(rawID, cmd);
    r := ExecIntoDockerContainer(nodeOfPod.value.name, containerCmd);
  }

  /** Lookup errors come first, pod before node, and pass through unchanged. */
  lemma ExecErrorPrecedence(k: Client, namespace: string, podName: string, containerName: string, cmd: seq<string>)
    ensures var pod := GetPodByNamespaceAndName(k, namespace, podName);
            var r := ExecOutcome(k, namespace, podName, containerName, cmd);
            && (pod.Err? ==> r == Err(pod.error))
            && (pod.Ok? && GetNodeOfPod(k, pod.value).Err? ==> r == Err(GetNodeOfPod(k, pod.value).error))
  {
  }

  /** On success the pod's node is entered with docker and the container of
      the FIRST status with the requested name is entered with runc, its
      scheme removed and the command words joined by spaces. */
  lemma ExecFirstMatch(k: Client, namespace: string, podName: string, containerName: string, cmd: seq<string>, i: int)
    requires GetPodByNamespaceAndName(k, namespace, podName).Ok?
    requires var pod := GetPodByNamespaceAndName(k, namespace, podName).value;
             && GetNodeOfPod(k, pod).Ok?
             && 0 <= i < |pod.containerStatuses|
             && pod.containerStatuses[i].name == containerName
             && pod.containerStatuses[i].containerID != ""
             && forall j :: 0 <= j < i ==> pod.containerStatuses[j].name != containerName
    ensures var pod := GetPodByNamespaceAndName(k, namespace, podName).value;
            ExecOutcome(k, namespace, podName, containerName, cmd) ==
              Ok(Invocation("docker", ["exec", "-ti", pod.nodeName, "sh", "-c",
                RuncExec + TrimPrefix(pod.containerStatuses[i].containerID, ContainerdScheme) + " " + Join(cmd, " ")]))
  {
    var pod := GetPodByNamespaceAndName(k, namespace, podName).value;
    ContainerIDOfFirstMatch(pod.containerStatuses, containerName, i);
    var id := pod.containerStatuses[i].containerID;
    assert GetNodeOfPod(k, pod).value.name == pod.nodeName;
    assert ["exec", "-ti", pod.nodeName] + ContainerCommand(id, cmd) ==
           ["exec", "-ti", pod.nodeName, "sh", "-c", RuncExec + TrimPrefix(id, ContainerdScheme) + " " + Join(cmd, " ")];
  }

  /** A container that is not among the statuses, or whose first status has
      no id yet, is reported by name together with the pod, and nothing is run. */
  lemma ExecContainerNotFound(k: Client, namespace: string, podName: string, containerName: string, cmd: seq<string>)
    requires GetPodByNamespaceAndName(k, namespace, podName).Ok?
    requires var pod := GetPodByNamespaceAndName(k, namespace, podName).value;
             && GetNodeOfPod(k, pod).Ok?
             && ((forall j :: 0 <= j < |pod.containerStatuses| ==> pod.containerStatuses[j].name != containerName)
                 || exists i :: 0 <= i < |pod.containerStatuses| && pod.containerStatuses[i].name == containerName
                      && pod.containerStatuses[i].containerID == ""
                      && forall j :: 0 <= j < i ==> pod.containerStatuses[j].name != containerName)
    ensures ExecOutcome(k, namespace, podName, containerName, cmd) ==
              Err(Failed("container " + containerName + " not found in pod " + podName))
  {
    var statuses := GetPodByNamespaceAndName(k, namespace, podName).value.containerStatuses;
    if forall j :: 0 <= j < |statuses| ==> statuses[j].name != containerName {
      ContainerIDOfNoMatch(statuses, containerName);
    } else {
      var i :| 0 <= i < |statuses| && statuses[i].name == containerName && statuses[i].containerID == ""
               && forall j :: 0 <= j < i ==> statuses[j].name != containerName;
      ContainerIDOfFirstMatch(statuses, containerName, i);
    }
  }

  /** RootIntoNamespacePodContainer: a root shell `shell` in the container. */
  method RootIntoNamespacePodContainer(k: Client, namespace: string, podName: string, containerName: string, shell: string)
    returns (r: Result<Invocation>)
    ensures r == ExecOutcome(k, namespace, podName, containerName, [shell])
  {
    var cmd := [shell];
    r := ExecInNamespacePodContainer(k, namespace, podName, containerName, cmd);
  }

  // --------------------------------------------------- "pod: container" ids

  /** The text before the first ": " names the pod, the text between the
      first and the second (or the end) names the container. */
  function SplitPodContainer(podContainerName: string): (r: (string, string))
    requires Contains(podContainerName, Separator)
    ensures OccursAt(podContainerName, Separator, |r.0|)
    ensures podContainerName[..|r.0|] == r.0 && !Contains(r.0, Separator)
    ensures HasPrefix(podContainerName[|r.0| + |Separator|..], r.1) && !Contains(r.1, Separator)
    ensures var rest := podContainerName[|r.0| + |Separator|..];
            |r.1| == |rest| || OccursAt(rest, Separator, |r.1|)
  {
    var parts := Split(podContainerName, Separator);
    var i := Index(podContainerName, Separator);
    var rest := podContainerName[i + |Separator|..];
    assert !Contains(parts[0], Separator) by {
      NothingBeforeIndex(podContainerName, Separator);
    }
    assert parts[1] == Split(rest, Separator)[0];
    assert !Contains(parts[1], Separator) by {
      if Contains(rest, Separator) {
        NothingBeforeIndex(rest, Separator);
      }
    }
    (parts[0], parts[1])
  }

  /** The text before the first occurrence of `t` does not contain `t`. */
  lemma NothingBeforeIndex(s: string, t: string)
    requires |t| > 0 && Index(s, t) >= 0
    ensures !Contains(s[..Index(s, t)], t)
  {
    var i := Index(s, t);
    var prefix := s[..i];
    forall j | 0 <= j && OccursAt(prefix, t, j) ensures OccursAt(s, t, j) {
      assert prefix[j..j + |t|] == s[j..j + |t|];
    }
  }

  /** The entry the interactive picker shows for a container of a pod
      (formatted "%s: %s"). */
  function PickerItem(podName: string, containerName: string): string {
    podName + Separator + containerName
  }

  /** Parsing a picker entry gives back the pod and container it was made
      from, as long as neither name contains ": ". */
  lemma PickerItemRoundTrip(podName: string, containerName: string)
    requires !Contains(podName, Separator) && !Contains(containerName, Separator)
    ensures Contains(PickerItem(podName, containerName), Separator)
    ensures SplitPodContainer(PickerItem(podName, containerName)) == (podName, containerName)
  {
    var s := PickerItem(podName, containerName);
    var n := |podName|;
    assert s[..n] == podName && s[n] == ':' && s[n..n + 2] == Separator && s[n + 2..] == containerName;
    forall j | 0 <= j < n ensures !OccursAt(s, Separator, j) {
      if j + 2 <= n {
        assert s[j..j + 2] == podName[j..j + 2];
        assert !OccursAt(podName, Separator, j);
      } else {
        assert s[j..j + 2][1] == ':';
        assert Separator[1] == ' ';
      }
    }
    assert OccursAt(s, Separator, n);
    assert Index(s, Separator) == n;
    assert Split(containerName, Separator) == [containerName];
    assert Split(s, Separator) == [podName, containerName];
  }

  /** Conversely, an identifier with exactly one ": " is the picker entry
      of the names parsed from it. */
  lemma SplitPodContainerRoundTrip(podContainerName: string)
    requires |Split(podContainerName, Separator)| == 2
    ensures PickerItem(SplitPodContainer(podContainerName).0, SplitPodContainer(podContainerName).1) == podContainerName
  {
    SplitJoin(podContainerName, Separator);
    var parts := Split(podContainerName, Separator);
    assert Join(parts, Separator) == parts[0] + Separator + Join(parts[1..], Separator);
    assert parts[1..] == [parts[1]];
  }

  /** RootIntoPodContainer: a root `sh` in the container named by a
      "pod: container" identifier, in the current namespace. */
  method RootIntoPodContainer(k: Client, podContainerName: string) returns (r: Result<Invocation>)
    requires Contains(podContainerName, Separator)
    requires HasCurrentContext(k)
    ensures r == ExecOutcome(k, GetNamespace(k), SplitPodContainer(podContainerName).0,
                             SplitPodContainer(podContainerName).1, ["sh"])
  {
    var seperator := Separator;
    var podName := Split(podContainerName, seperator)[0];
    var containerName := Split(podContainerName, seperator)[1];
    var namespace := GetNamespace(k);
    r := RootIntoNamespacePodContainer(k, namespace, podName, containerName, "sh");
  }

  /** RunInNodeOfPod: runs `cmds` unchanged with docker in the pod's node. */
  method RunInNodeOfPod(k: Client, pod: Pod, cmds: seq<string>) returns (r: Result<Invocation>)
    ensures GetNodeOfPod(k, pod).Err? ==> r == Err(GetNodeOfPod(k, pod).error)
    ensures GetNodeOfPod(k, pod).Ok? ==> r == Ok(DockerExec(pod.nodeName, cmds))
  {
    var nodeOfPod := GetNodeOfPod(k, pod);
    if nodeOfPod.Err? {
      return Err(nodeOfPod.error);
    }
    r := ExecIntoDockerContainer(nodeOfPod.value.name, cmds);
  }

  // -------------------------------------------------------------- scenarios

  /** The command line for id abc123 and command `ls -la`. */
  lemma RuncCommandExample()
    ensures ContainerCommand("containerd://abc123", ["ls", "-la"]) == ["sh", "-c", RuncExec + "abc123 ls -la"]
  {
    assert ContainerdScheme + "abc123" == "containerd://abc123";
    ContainerCommandStripsScheme("abc123", ["ls", "-la"]);
    assert ["ls", "-la"][1..] == ["-la"];
    assert Join(["ls", "-la"], " ") == "ls -la";
    assert RuncCommand("abc123", ["ls", "-la"]) == RuncExec + "abc123" + " " + "ls -la";
    assert RuncExec + "abc123" + " " + "ls -la" == RuncExec + "abc123 ls -la";
  }

  /** A cluster none of whose node names starts with "k3d" is not k3d. */
  lemma NotK3dExample()
    ensures !HasK3dNode([Node("gke-cluster-default-pool-1"), Node("gke-cluster-default-pool-2")])
  {
    var nodes := [Node("gke-cluster-default-pool-1"), Node("gke-cluster-default-pool-2")];
    forall n | n in nodes ensures !IsK3dNode(n) {
      assert n.name[..3] == "gke";
    }
  }

  /** Pod web-0 of namespace default, container app with id
      containerd://deadbeef, scheduled on node k3d-worker-1. */
  function WebCluster(): Client {
    Client(
      ApiServer(
        [Node("k3d-server-0"), Node("k3d-worker-1")],
        [Pod("default", "web-0", "k3d-worker-1", PodRunning,
             [Container("app", "nginx:1.25")],
             [ContainerStatus("app", "containerd://deadbeef")])],
        [], [], map[]),
      KubeConfig("k3d-dev", map["k3d-dev" := Context("")]))
  }

  /** A name without ':' cannot contain the separator. */
  lemma NoColonNoSeparator(s: string)
    requires forall i :: 0 <= i < |s| ==> s[i] != ':'
    ensures !Contains(s, Separator)
  {
    forall j | 0 <= j ensures !OccursAt(s, Separator, j) {
      if j + 2 <= |s| {
        assert s[j..j + 2][0] == s[j] && Separator[0] == ':';
      }
    }
  }

  /** The picker entry "web-0: app" names pod web-0 and container app. */
  lemma WebEntry()
    ensures Contains("web-0: app", Separator)
    ensures SplitPodContainer("web-0: app") == ("web-0", "app")
  {
    NoColonNoSeparator("web-0");
    NoColonNoSeparator("app");
    assert PickerItem("web-0", "app") == "web-0: app";
    PickerItemRoundTrip("web-0", "app");
  }

  /** On that cluster web-0 is found and is scheduled on k3d-worker-1. */
  lemma WebLookups()
    ensures GetPodByNamespaceAndName(WebCluster(), "default", "web-0") == Ok(WebCluster().api.pods[0])
    ensures GetNodeOfPod(WebCluster(), WebCluster().api.pods[0]) == Ok(Node("k3d-worker-1"))
  {
  }

  /** Entering container app of web-0 on that cluster runs runc on deadbeef,
      with the scheme removed, inside node k3d-worker-1. */
  lemma WebScenario()
    ensures HasCurrentContext(WebCluster()) && GetNamespace(WebCluster()) == "default"
    ensures ExecOutcome(WebCluster(), "default", "web-0", "app", ["sh"]) ==
              Ok(Invocation("docker", ["exec", "-ti", "k3d-worker-1", "sh", "-c", RuncExec + "deadbeef sh"]))
  {
    var statuses := WebCluster().api.pods[0].containerStatuses;
    WebLookups();
    ContainerIDOfFirstMatch(statuses, "app", 0);
    assert ContainerdScheme + "deadbeef" == "containerd://deadbeef";
    ContainerCommandStripsScheme("deadbeef", ["sh"]);
    JoinSingleton("sh", " ");
    assert RuncCommand("deadbeef", ["sh"]) == RuncExec + "deadbeef sh";
    var inner := ["sh", "-c", RuncExec + "deadbeef sh"];
    assert ContainerCommand("containerd://deadbeef", ["sh"]) == inner;
    assert ExecOutcome(WebCluster(), "default", "web-0", "app", ["sh"]) == Ok(DockerExec("k3d-worker-1", inner));
    assert ["exec", "-ti", "k3d-worker-1"] + inner == ["exec", "-ti", "k3d-worker-1", "sh", "-c", RuncExec + "deadbeef sh"];
  }
}
