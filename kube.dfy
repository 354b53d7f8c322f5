/** The Kubernetes client of helpers/kube.go, over an immutable snapshot of
    the API server instead of a live connection.

    Every read the client makes (list nodes, get a node, list pods, get a
    pod, get a claim, get a volume) is a `Request`. The snapshot answers it
    from its objects, unless the request has an injected failure in `faults`,
    in which case it fails with that error; a get for a name that is absent
    fails with `NotFound`. */
module Kube {
  import opened GoStrings

  datatype Option<T> = None | Some(value: T)

  /** Errors are opaque to the core and passed on unchanged. */
  datatype Error =
    | NotFound(resource: string, name: string)  // the API server's "not found" status
    | ApiFailure(reason: string)                // any other failed request
    | Failed(message: string)                   // an error the core builds itself

  datatype Result<T> = Ok(value: T) | Err(error: Error)

  datatype Phase = PodPending | PodRunning | PodSucceeded | PodFailed | PodUnknown

  /** One entry of pod.Spec.Containers. */
  datatype Container = Container(name: string, image: string)

  /** One entry of pod.Status.ContainerStatuses; `containerID` carries the
      engine scheme, e.g. "containerd://…", or is empty before start. */
  datatype ContainerStatus = ContainerStatus(name: string, containerID: string)

  datatype Pod = Pod(
    namespace: string,
    name: string,
    nodeName: string,                     // pod.Spec.NodeName
    phase: Phase,                         // pod.Status.Phase
    containers: seq<Container>,           // pod.Spec.Containers
    containerStatuses: seq<ContainerStatus>)

  datatype Node = Node(name: string)

  datatype PersistentVolumeClaim = PersistentVolumeClaim(namespace: string, name: string, volumeName: string)

  datatype HostPathVolumeSource = HostPathVolumeSource(path: string)

  /** `hostPath` is None when the volume is backed by anything else. */
  datatype PersistentVolume = PersistentVolume(name: string, hostPath: Option<HostPathVolumeSource>)

  datatype PersistentVolumeClaimVolumeSource = PersistentVolumeClaimVolumeSource(claimName: string)

  /** A volume of a pod; `persistentVolumeClaim` is None unless it is backed by a claim. */
  datatype Volume = Volume(name: string, persistentVolumeClaim: Option<PersistentVolumeClaimVolumeSource>)

  datatype Request =
    | ListNodes
    | GetNode(name: string)
    | ListPods(namespace: string)
    | GetPod(namespace: string, name: string)
    | GetClaim(namespace: string, name: string)
    | GetVolume(name: string)

  /** What the API server holds at one point in time, in its listing order. */
  datatype ApiServer = ApiServer(
    nodes: seq<Node>,
    pods: seq<Pod>,
    claims: seq<PersistentVolumeClaim>,
    volumes: seq<PersistentVolume>,
    faults: map<Request, Error>)

  /** The parts of the operator's kubeconfig that the client reads. */
  datatype Context = Context(namespace: string)
  datatype KubeConfig = KubeConfig(currentContext: string, contexts: map<string, Context>)

  /** The K8sClient handle: the cluster it talks to and the local kubeconfig. */
  datatype Client = Client(api: ApiServer, config: KubeConfig)

  /** metav1.NamespaceAll */
  const NamespaceAll: string := ""

  /** The namespace used when the current context names none. */
  const DefaultNamespace: string := "default"

  /** The first element of `s` that satisfies `p`. */
  function FindFirst<T>(s: seq<T>, p: T -> bool): (r: Option<T>)
    ensures r.Some? ==> r.value in s && p(r.value)
    ensures r.None? ==> forall x :: x in s ==> !p(x)
  {
    if |s| == 0 then None
    else if p(s[0]) then Some(s[0])
    else FindFirst(s[1..], p)
  }

  // ---------------------------------------------------------------- lookups

  /** K8sClient.GetNodes */
  function GetNodes(k: Client): (r: Result<seq<Node>>)
    ensures ListNodes in k.api.faults ==> r == Err(k.api.faults[ListNodes])
    ensures ListNodes !in k.api.faults ==> r == Ok(k.api.nodes)
  {
    if ListNodes in k.api.faults then Err(k.api.faults[ListNodes]) else Ok(k.api.nodes)
  }

  /** Get of the node called `name`. */
  function GetNodeByName(k: Client, name: string): (r: Result<Node>)
    ensures r.Ok? ==> r.value in k.api.nodes && r.value.name == name
    ensures r.Err? <==> GetNode(name) in k.api.faults || forall n :: n in k.api.nodes ==> n.name != name
    ensures GetNode(name) in k.api.faults ==> r == Err(k.api.faults[GetNode(name)])
  {
    if GetNode(name) in k.api.faults then Err(k.api.faults[GetNode(name)])
    else match FindFirst(k.api.nodes, (n: Node) => n.name == name)
      case Some(n) => Ok(n)
      case None => Err(NotFound("nodes", name))
  }

  /** K8sClient.GetNodeOfPod: the node the pod is scheduled on. */
  function GetNodeOfPod(k: Client, pod: Pod): (r: Result<Node>)
    ensures r.Ok? ==> r.value in k.api.nodes && r.value.name == pod.nodeName
    ensures r.Err? <==> GetNode(pod.nodeName) in k.api.faults || forall n :: n in k.api.nodes ==> n.name != pod.nodeName
  {
    GetNodeByName(k, pod.nodeName)
  }

  /** K8sClient.GetPodByNamespaceAndName */
  function GetPodByNamespaceAndName(k: Client, namespace: string, name: string): (r: Result<Pod>)
    ensures r.Ok? ==> r.value in k.api.pods && r.value.namespace == namespace && r.value.name == name
    ensures r.Err? <==> GetPod(namespace, name) in k.api.faults ||
                        forall p :: p in k.api.pods ==> !(p.namespace == namespace && p.name == name)
    ensures GetPod(namespace, name) in k.api.faults ==> r == Err(k.api.faults[GetPod(namespace, name)])
  {
    if GetPod(namespace, name) in k.api.faults then Err(k.api.faults[GetPod(namespace, name)])
    else match FindFirst(k.api.pods, (p: Pod) => p.namespace == namespace && p.name == name)
      case Some(p) => Ok(p)
      case None => Err(NotFound("pods", name))
  }

  /** The pods of `namespace` in listing order; every pod for NamespaceAll. */
  function PodsIn(pods: seq<Pod>, namespace: string): (r: seq<Pod>)
    ensures namespace == NamespaceAll ==> r == pods
    ensures forall p :: p in r <==> p in pods && (namespace == NamespaceAll || p.namespace == namespace)
  {
    if namespace == NamespaceAll || |pods| == 0 then pods
    else (if pods[0].namespace == namespace then [pods[0]] else []) + PodsIn(pods[1..], namespace)
  }

  /** The pod list request of GetPodsByNamespace. */
  function ListPodsIn(k: Client, namespace: string): (r: Result<seq<Pod>>)
    ensures ListPods(namespace) in k.api.faults ==> r == Err(k.api.faults[ListPods(namespace)])
    ensures ListPods(namespace) !in k.api.faults ==> r == Ok(PodsIn(k.api.pods, namespace))
  {
    if ListPods(namespace) in k.api.faults then Err(k.api.faults[ListPods(namespace)])
    else Ok(PodsIn(k.api.pods, namespace))
  }

  /** K8sClient.GetPVC */
  function GetPVC(k: Client, namespace: string, claimName: string): (r: Result<PersistentVolumeClaim>)
    ensures r.Ok? ==> r.value in k.api.claims && r.value.namespace == namespace && r.value.name == claimName
    ensures r.Err? <==> GetClaim(namespace, claimName) in k.api.faults ||
                        forall c :: c in k.api.claims ==> !(c.namespace == namespace && c.name == claimName)
  {
    if GetClaim(namespace, claimName) in k.api.faults then Err(k.api.faults[GetClaim(namespace, claimName)])
    else match FindFirst(k.api.claims, (c: PersistentVolumeClaim) => c.namespace == namespace && c.name == claimName)
      case Some(c) => Ok(c)
      case None => Err(NotFound("persistentvolumeclaims", claimName))
  }

  /** K8sClient.GetPV */
  function GetPV(k: Client, volumeName: string): (r: Result<PersistentVolume>)
    ensures r.Ok? ==> r.value in k.api.volumes && r.value.name == volumeName
    ensures r.Err? <==> GetVolume(volumeName) in k.api.faults ||
                        forall v :: v in k.api.volumes ==> v.name != volumeName
  {
    if GetVolume(volumeName) in k.api.faults then Err(k.api.faults[GetVolume(volumeName)])
    else match FindFirst(k.api.volumes, (v: PersistentVolume) => v.name == volumeName)
      case Some(v) => Ok(v)
      case None => Err(NotFound("persistentvolumes", volumeName))
  }

  // ------------------------------------------------------------- namespace

  /** The kubeconfig names a current context that it defines (otherwise the
      source dereferences a nil context and panics). */
  predicate HasCurrentContext(k: Client) {
    k.config.currentContext in k.config.contexts
  }

  /** K8sClient.GetNamespace: the current context's namespace, or "default". */
  function GetNamespace(k: Client): (ns: string)
    requires HasCurrentContext(k)
    ensures ns != ""
    ensures k.config.contexts[k.config.currentContext].namespace != "" ==>
              ns == k.config.contexts[k.config.currentContext].namespace
    ensures k.config.contexts[k.config.currentContext].namespace == "" ==> ns == DefaultNamespace
  {
    var namespace := k.config.contexts[k.config.currentContext].namespace;
    if namespace == "" then DefaultNamespace else namespace
  }

  /** K8sClient.GetPodByNameInCurrentNamespace */
  function GetPodByNameInCurrentNamespace(k: Client, name: string): (r: Result<Pod>)
    requires HasCurrentContext(k)
    ensures r.Ok? ==> r.value in k.api.pods && r.value.namespace == GetNamespace(k) && r.value.name == name
    ensures r.Err? <==> GetPod(GetNamespace(k), name) in k.api.faults ||
                        forall p :: p in k.api.pods ==> !(p.namespace == GetNamespace(k) && p.name == name)
  {
    GetPodByNamespaceAndName(k, GetNamespace(k), name)
  }

  // ------------------------------------------------------------ pod queries

  predicate Kept(pod: Pod, requireRunning: bool) {
    pod.phase == PodRunning || !requireRunning
  }

  /** The pods GetPodsByNamespace keeps, in list order. */
  function KeepRunning(pods: seq<Pod>, requireRunning: bool): seq<Pod>
    decreases |pods|
  {
    if |pods| == 0 then []
    else
      var last := pods[|pods| - 1];
      KeepRunning(pods[..|pods| - 1], requireRunning) + (if Kept(last, requireRunning) then [last] else [])
  }

  /** A pod is kept exactly when it is listed and (if required) running. */
  lemma {:induction false} KeepRunningMembers(pods: seq<Pod>, requireRunning: bool)
    ensures forall p :: p in KeepRunning(pods, requireRunning) <==> p in pods && Kept(p, requireRunning)
    ensures |KeepRunning(pods, requireRunning)| <= |pods|
    decreases |pods|
  {
    if |pods| > 0 {
      var init := pods[..|pods| - 1];
      KeepRunningMembers(init, requireRunning);
      assert pods == init + [pods[|pods| - 1]];
    }
  }

  /** Without the running requirement the list comes back whole, in order. */
  lemma {:induction false} KeepRunningAll(pods: seq<Pod>)
    ensures KeepRunning(pods, false) == pods
    decreases |pods|
  {
    if |pods| > 0 {
      var init := pods[..|pods| - 1];
      KeepRunningAll(init);
      assert pods == init + [pods[|pods| - 1]];
    }
  }

  /** K8sClient.GetPodsByNamespace */
  method GetPodsByNamespace(k: Client, namespace: string, requireRunning: bool) returns (r: Result<seq<Pod>>)
    ensures ListPodsIn(k, namespace).Err? ==> r == Err(ListPodsIn(k, namespace).error)
    ensures ListPodsIn(k, namespace).Ok? ==> r == Ok(KeepRunning(ListPodsIn(k, namespace).value, requireRunning))
  {
    var listed := ListPodsIn(k, namespace);
    if listed.Err? {
      return Err(listed.error);
    }
    var pods := listed.value;
    var runningPods: seq<Pod> := [];
    var x := 0;
    while x < |pods|
      invariant 0 <= x <= |pods|
      invariant runningPods == KeepRunning(pods[..x], requireRunning)
    {
      assert pods[..x + 1][..x] == pods[..x];
      if pods[x].phase == PodRunning || !requireRunning {
        runningPods := runningPods + [pods[x]];
      }
      x := x + 1;
    }
    assert pods[..x] == pods;
    return Ok(runningPods);
  }

  /** K8sClient.GetAllRunningPods */
  method GetAllRunningPods(k: Client) returns (r: Result<seq<Pod>>)
    ensures ListPods(NamespaceAll) in k.api.faults ==> r == Err(k.api.faults[ListPods(NamespaceAll)])
    ensures ListPods(NamespaceAll) !in k.api.faults ==> r == Ok(KeepRunning(k.api.pods, true))
  {
    r := GetPodsByNamespace(k, NamespaceAll, true);
  }

  /** K8sClient.GetAllPods */
  method GetAllPods(k: Client) returns (r: Result<seq<Pod>>)
    ensures ListPods(NamespaceAll) in k.api.faults ==> r == Err(k.api.faults[ListPods(NamespaceAll)])
    ensures ListPods(NamespaceAll) !in k.api.faults ==> r == Ok(k.api.pods)
  {
    r := GetPodsByNamespace(k, NamespaceAll, false);
    KeepRunningAll(k.api.pods);
  }

  /** K8sClient.GetRunningPodsInCurrentNamespace */
  method GetRunningPodsInCurrentNamespace(k: Client) returns (r: Result<seq<Pod>>)
    requires HasCurrentContext(k)
    ensures r.Ok? ==> forall p :: p in r.value <==>
              p in k.api.pods && p.namespace == GetNamespace(k) && p.phase == PodRunning
    ensures r.Err? <==> ListPods(GetNamespace(k)) in k.api.faults
    ensures r.Err? ==> r.error == k.api.faults[ListPods(GetNamespace(k))]
    ensures r.Ok? ==> r.value == KeepRunning(PodsIn(k.api.pods, GetNamespace(k)), true)
  {
    r := GetPodsByNamespace(k, GetNamespace(k), true);
    KeepRunningMembers(PodsIn(k.api.pods, GetNamespace(k)), true);
  }

  // ---------------------------------------------------------- image search

  /** The image test of GetPodsByImage. */
  predicate ImageMatches(image: string, imageName: string, exactMatch: bool) {
    if exactMatch then image == imageName else Contains(image, imageName)
  }

  /** One copy of `pod` per container of `containers` whose image matches. */
  function PodCopies(pod: Pod, containers: seq<Container>, imageName: string, exactMatch: bool): seq<Pod>
    decreases |containers|
  {
    if |containers| == 0 then []
    else
      var last := containers[|containers| - 1];
      PodCopies(pod, containers[..|containers| - 1], imageName, exactMatch) +
        (if ImageMatches(last.image, imageName, exactMatch) then [pod] else [])
  }

  /** What GetPodsByImage collects from `pods`, in pod-then-container order. */
  function PodsWithImage(pods: seq<Pod>, imageName: string, exactMatch: bool): seq<Pod>
    decreases |pods|
  {
    if |pods| == 0 then []
    else
      var last := pods[|pods| - 1];
      PodsWithImage(pods[..|pods| - 1], imageName, exactMatch) + PodCopies(last, last.containers, imageName, exactMatch)
  }

  predicate HasImage(pod: Pod, imageName: string, exactMatch: bool) {
    exists c :: c in pod.containers && ImageMatches(c.image, imageName, exactMatch)
  }

  lemma {:induction false} PodCopiesCount(pod: Pod, containers: seq<Container>, imageName: string, exactMatch: bool)
    ensures forall p :: p in PodCopies(pod, containers, imageName, exactMatch) ==> p == pod
    ensures pod in PodCopies(pod, containers, imageName, exactMatch) <==>
              exists c :: c in containers && ImageMatches(c.image, imageName, exactMatch)
    decreases |containers|
  {
    if |containers| > 0 {
      var init := containers[..|containers| - 1];
      PodCopiesCount(pod, init, imageName, exactMatch);
      assert containers == init + [containers[|containers| - 1]];
    }
  }

  /** A pod is in the image search result exactly when it is listed and one
      of its containers runs a matching image. */
  lemma {:induction false} PodsWithImageMembers(pods: seq<Pod>, imageName: string, exactMatch: bool)
    ensures forall p :: p in PodsWithImage(pods, imageName, exactMatch) <==>
              p in pods && HasImage(p, imageName, exactMatch)
    decreases |pods|
  {
    if |pods| > 0 {
      var init := pods[..|pods| - 1];
      var last := pods[|pods| - 1];
      PodsWithImageMembers(init, imageName, exactMatch);
      PodCopiesCount(last, last.containers, imageName, exactMatch);
      assert pods == init + [last];
    }
  }

  /** The positions of `s` whose element satisfies `p`. */
  function IndicesWhere<T>(s: seq<T>, p: T -> bool): set<nat> {
    set i: nat | i < |s| && p(s[i])
  }

  lemma IndicesWhereSnoc<T>(s: seq<T>, p: T -> bool)
    requires |s| > 0
    ensures |IndicesWhere(s, p)| == |IndicesWhere(s[..|s| - 1], p)| + (if p(s[|s| - 1]) then 1 else 0)
  {
    var n := |s| - 1;
    var before := IndicesWhere(s[..n], p);
    var after := IndicesWhere(s, p);
    var last: set<nat> := if p(s[n]) then {n} else {};
    forall i: nat ensures i in after <==> i in before + last {
      if i < n {
        assert s[..n][i] == s[i];
      }
    }
    assert after == before + last;
    assert before !! last;
  }

  /** The positions of the containers whose image matches. */
  function MatchingIndices(containers: seq<Container>, imageName: string, exactMatch: bool): set<nat> {
    IndicesWhere(containers, (c: Container) => ImageMatches(c.image, imageName, exactMatch))
  }

  /** A pod is repeated once per matching container. */
  lemma {:induction false} PodCopiesLength(pod: Pod, containers: seq<Container>, imageName: string, exactMatch: bool)
    ensures |PodCopies(pod, containers, imageName, exactMatch)| == |MatchingIndices(containers, imageName, exactMatch)|
    decreases |containers|
  {
    if |containers| == 0 {
      assert MatchingIndices(containers, imageName, exactMatch) == {};
    } else {
      PodCopiesLength(pod, containers[..|containers| - 1], imageName, exactMatch);
      IndicesWhereSnoc(containers, (c: Container) => ImageMatches(c.image, imageName, exactMatch));
    }
  }

  lemma PodCopiesSnoc(pod: Pod, containers: seq<Container>, j: nat, imageName: string, exactMatch: bool)
    requires j < |containers|
    ensures PodCopies(pod, containers[..j + 1], imageName, exactMatch) ==
            PodCopies(pod, containers[..j], imageName, exactMatch) +
            (if ImageMatches(containers[j].image, imageName, exactMatch) then [pod] else [])
  {
    assert containers[..j + 1][..j] == containers[..j];
  }

  lemma PodsWithImageSnoc(pods: seq<Pod>, i: nat, imageName: string, exactMatch: bool)
    requires i < |pods|
    ensures PodsWithImage(pods[..i + 1], imageName, exactMatch) ==
            PodsWithImage(pods[..i], imageName, exactMatch) + PodCopies(pods[i], pods[i].containers, imageName, exactMatch)
  {
    assert pods[..i + 1][..i] == pods[..i];
  }

  /** The inner loop of GetPodsByImage: appends `pod` to `foundPods` once
      for each of its containers whose image matches. */
  method AppendPodCopies(foundPods: seq<Pod>, pod: Pod, imageName: string, exactMatch: bool) returns (found: seq<Pod>)
    ensures found == foundPods + PodCopies(pod, pod.containers, imageName, exactMatch)
  {
    found := foundPods;
    ghost var copies: seq<Pod> := [];
    var j := 0;
    while j < |pod.containers|
      invariant 0 <= j <= |pod.containers|
      invariant copies == PodCopies(pod, pod.containers[..j], imageName, exactMatch)
      invariant found == foundPods + copies
    {
      var container := pod.containers[j];
      PodCopiesSnoc(pod, pod.containers, j, imageName, exactMatch);
      if exactMatch {
        if container.image == imageName {
          found := found + [pod];
          copies := copies + [pod];
        }
      } else {
        if Contains(container.image, imageName) {
          found := found + [pod];
          copies := copies + [pod];
        }
      }
      j := j + 1;
    }
    assert pod.containers[..j] == pod.containers;
  }

  /** K8sClient.GetPodsByImage */
  method GetPodsByImage(k: Client, imageName: string, exactMatch: bool) returns (r: Result<seq<Pod>>)
    ensures ListPods(NamespaceAll) in k.api.faults ==> r == Err(k.api.faults[ListPods(NamespaceAll)])
    ensures ListPods(NamespaceAll) !in k.api.faults ==> r == Ok(PodsWithImage(k.api.pods, imageName, exactMatch))
  {
    var allPods := GetPodsByNamespace(k, "", false);
    if allPods.Err? {
      return Err(allPods.error);
    }
    KeepRunningAll(k.api.pods);
    var pods := allPods.value;
    var foundPods: seq<Pod> := [];
    var i := 0;
    while i < |pods|
      invariant 0 <= i <= |pods|
      invariant foundPods == PodsWithImage(pods[..i], imageName, exactMatch)
    {
      foundPods := AppendPodCopies(foundPods, pods[i], imageName, exactMatch);
      PodsWithImageSnoc(pods, i, imageName, exactMatch);
      i := i + 1;
    }
    assert pods[..i] == pods;
    return Ok(foundPods);
  }

  // ------------------------------------------------------------- host path

  /** K8sClient.GetHostPathOfVolumeMount: follows the volume's claim to its
      persistent volume and returns that volume's host path. */
  function GetHostPathOfVolumeMount(k: Client, namespace: string, volumeMount: Volume): (r: Result<string>)
    requires volumeMount.persistentVolumeClaim.Some?
    ensures r.Ok? ==> exists c, v ::
              (c in k.api.claims && v in k.api.volumes &&
               c.namespace == namespace && c.name == volumeMount.persistentVolumeClaim.value.claimName &&
               c.volumeName != "" && v.name == c.volumeName && v.hostPath == Some(HostPathVolumeSource(r.value)))
  {
    match GetPVC(k, namespace, volumeMount.persistentVolumeClaim.value.claimName)
    case Err(e) => Err(e)
    case Ok(pvc) =>
      if pvc.volumeName == "" then Err(Failed("volumeName is empty"))
      else match GetPV(k, pvc.volumeName)
        case Err(e) => Err(e)
        case Ok(pv) =>
          if pv.hostPath.None? then Err(Failed("pv is not a hostpath"))
          else Ok(pv.hostPath.value.path)
  }

  /** The checks of GetHostPathOfVolumeMount come in a fixed order, and
      lookup errors are passed on unchanged. */
  lemma HostPathErrorOrder(k: Client, namespace: string, volumeMount: Volume)
    requires volumeMount.persistentVolumeClaim.Some?
    ensures var claim := GetPVC(k, namespace, volumeMount.persistentVolumeClaim.value.claimName);
            var r := GetHostPathOfVolumeMount(k, namespace, volumeMount);
            && (claim.Err? ==> r == Err(claim.error))
            && (claim.Ok? && claim.value.volumeName == "" ==> r == Err(Failed("volumeName is empty")))
            && (claim.Ok? && claim.value.volumeName != "" ==>
                  var pv := GetPV(k, claim.value.volumeName);
                  && (pv.Err? ==> r == Err(pv.error))
                  && (pv.Ok? && pv.value.hostPath.None? ==> r == Err(Failed("pv is not a hostpath")))
                  && (pv.Ok? && pv.value.hostPath.Some? ==> r == Ok(pv.value.hostPath.value.path)))
  {
  }
}
