# k3droot in Dafny

k3droot opens a root shell inside a container of a pod running on a k3d
cluster. k3d runs every Kubernetes node as a Docker container, so instead of
the cluster's exec API the tool goes through the node: it resolves the pod,
the node that hosts it, and the runtime id of the wanted container, and then
runs

    docker exec -ti <node> sh -c "runc --root /run/containerd/runc/k8s.io/ exec -t -u 0 <id> <cmd>"

This project models that resolution and command building, and proves what it
does.

- `strings.dfy`, module `GoStrings`: the parts of Go's `strings` package the
  code uses (`HasPrefix`, `TrimPrefix`, `Index`, `Contains`, `Split`, `Join`),
  including `Split` splitting on every occurrence. They work over characters
  rather than Go's bytes, so `Index` counts characters, and the substrings
  they produce agree with Go's on valid UTF-8 text.
- `kube.dfy`, module `Kube`: the Kubernetes client of `helpers/kube.go`. The
  API server is an immutable snapshot (`ApiServer`: nodes, pods, claims and
  persistent volumes in listing order). Every client call is a `Request` that
  the snapshot answers, unless the request carries an injected failure in
  `faults`. A get for an absent name fails with `NotFound`. The operator's
  kubeconfig (current context and its namespace) is part of the `Client`
  value. Queries that loop (`GetPodsByNamespace`, `GetPodsByImage`) are
  methods with loop invariants, proved against specification functions.
- `helpers_k3d.dfy`, module `HelpersK3d`: `helpers/k3d.go`, which covers the
  k3d check, target resolution, the runc command line, the docker call and
  the `"pod: container"` identifier. Starting a process is modelled by the
  `Invocation` (program and argument vector) it would start.
- `root_k3d.dfy`, module `RootK3d`: the older `k3d.go`, which always enters
  the container of the pod's first container status. Lemmas relate it to
  the helpers version.

Client errors are opaque and passed on unchanged. The errors the code builds
itself are `Failed(message)` with the code's exact message.

## Model

| member | source | states |
|---|---|---|
| `GoStrings.SplitJoin` | helpers/k3d.go:71-72 | Splitting an identifier on ": " loses nothing: joining the pieces with ": " gives it back |
| `Kube.GetNodes` | helpers/kube.go:180-187 | The node list of the snapshot, or the list request's error |
| `Kube.GetNodeOfPod` | helpers/kube.go:189-195 | Returns a node of the cluster named exactly `pod.Spec.NodeName`; fails exactly when that get fails or no such node exists |
| `Kube.GetPodByNamespaceAndName` | helpers/kube.go:100-107 | Returns a listed pod with that namespace and name; fails exactly when the get fails or no such pod exists, passing an injected error on unchanged |
| `Kube.PodsIn` | helpers/kube.go:148 | Listing a namespace yields exactly the pods of that namespace, and every pod for the all-namespaces value "" |
| `Kube.GetPVC` | helpers/kube.go:224-230 | Returns the claim with that namespace and name, or fails exactly when the get fails or there is none |
| `Kube.GetPV` | helpers/kube.go:232-238 | Returns the persistent volume with that name, or fails exactly when the get fails or there is none |
| `Kube.GetNamespace` | helpers/kube.go:170-178 | The current context's namespace, or "default" when it is empty; never empty |
| `Kube.GetPodByNameInCurrentNamespace` | helpers/kube.go:133-137 | Looks the pod up under (current namespace, name), with the lookup's result and errors |
| `Kube.KeepRunningMembers` | helpers/kube.go:155-159 | A pod is kept exactly when it is listed and, if running is required, in phase Running; the result is never longer than the list |
| `Kube.KeepRunningAll` | helpers/kube.go:155-159 | Without the running requirement the whole list is returned, in order |
| `Kube.GetPodsByNamespace` | helpers/kube.go:147-162 | A list error is returned unchanged; otherwise the listed pods that pass the phase test, in list order |
| `Kube.GetAllRunningPods` | helpers/kube.go:139-141 | The running pods of all namespaces, in list order, or the list error |
| `Kube.GetAllPods` | helpers/kube.go:143-145 | Every pod of the snapshot, in order, or the list error |
| `Kube.GetRunningPodsInCurrentNamespace` | helpers/kube.go:164-168 | The running pods of the current namespace, in list order and with their multiplicity (the list the picker shows and counts); fails exactly when listing that namespace fails |
| `Kube.PodCopiesCount` | helpers/kube.go:117-127 | The copies one pod contributes are all that pod, and there is one exactly when some container image matches |
| `Kube.PodCopiesLength` | helpers/kube.go:117-127 | A pod is repeated once per container whose image matches |
| `Kube.PodsWithImageMembers` | helpers/kube.go:115-128 | A pod appears in the image search exactly when it is listed and some container's image equals (exact) or contains (non-exact) the name |
| `Kube.AppendPodCopies` | helpers/kube.go:117-127 | The inner loop appends the pod once per matching container, in container order |
| `Kube.GetPodsByImage` | helpers/kube.go:109-131 | A list error is returned unchanged; otherwise the pods in pod-then-container order, one entry per matching container |
| `Kube.GetHostPathOfVolumeMount` | helpers/kube.go:240-256 | A returned path is the host path of the persistent volume bound to the volume's claim in that namespace |
| `Kube.HostPathErrorOrder` | helpers/kube.go:240-256 | Claim error first, then "volumeName is empty", then the volume lookup error, then "pv is not a hostpath"; otherwise the host path |
| `HelpersK3d.IsK3d` | helpers/k3d.go:14-27 | A node-list error gives (false, err); otherwise true exactly when some node name starts with "k3d" |
| `HelpersK3d.HasK3dNodeOrderIndependent` | helpers/k3d.go:20-24 | The answer does not depend on the order of the nodes |
| `HelpersK3d.NotK3dExample` | helpers/k3d.go:14-27 | A cluster of gke-… nodes is not k3d |
| `HelpersK3d.ContainerIDOfFirstMatch` | helpers/k3d.go:40-47 | The id taken is that of the first status with the requested name; later ones are ignored |
| `HelpersK3d.ContainerIDOfNoMatch` | helpers/k3d.go:40-47 | Without a status of that name the id is empty |
| `HelpersK3d.ContainerCommandStripsScheme` | helpers/k3d.go:52-54 | "containerd://" is removed exactly when the id starts with it; the vector is sh -c and the runc line |
| `HelpersK3d.RuncCommandExample` | helpers/k3d.go:52-54 | Id containerd://abc123 and command ls -la give the runc line ending in "abc123 ls -la" |
| `HelpersK3d.ExecIntoDockerContainer` | helpers/k3d.go:86-108 | Runs program "docker" with argv exec, -ti, the container name, then the commands unchanged; returns nil |
| `HelpersK3d.ExecInNamespacePodContainer` | helpers/k3d.go:29-62 | Does what ExecOutcome describes, for every input |
| `HelpersK3d.ExecErrorPrecedence` | helpers/k3d.go:30-38 | A pod lookup error is returned unchanged before a node lookup error, and both before anything else |
| `HelpersK3d.ExecFirstMatch` | helpers/k3d.go:40-56 | On success: docker exec -ti on the pod's node, sh -c, the runc line with the first matching status's id (scheme removed) and the command joined by spaces |
| `HelpersK3d.ExecContainerNotFound` | helpers/k3d.go:48-50 | No status of that name, or an empty id on the first one, gives "container c not found in pod p" and runs nothing |
| `HelpersK3d.RootIntoNamespacePodContainer` | helpers/k3d.go:64-67 | The exec with the one-word command [shell] |
| `HelpersK3d.SplitPodContainer` | helpers/k3d.go:69-72 | The pod is the text before the first ": ", the container the text after it up to the next ": " or the end; neither contains ": " |
| `HelpersK3d.PickerItemRoundTrip` | helpers/k3d.go:70-72 | Parsing the picker entry "p: c" (main.go line 132) gives back (p, c) when neither name contains ": " |
| `HelpersK3d.SplitPodContainerRoundTrip` | helpers/k3d.go:70-72 | An identifier with exactly one ": " is the picker entry of its parsed pod and container |
| `HelpersK3d.WebEntry` | helpers/k3d.go:70-72 | "web-0: app" names pod web-0 and container app |
| `HelpersK3d.RootIntoPodContainer` | helpers/k3d.go:69-76 | A root "sh" in the parsed pod and container, in the current namespace |
| `HelpersK3d.RunInNodeOfPod` | helpers/k3d.go:78-84 | A node lookup error is returned before any exec; otherwise docker runs the commands unchanged on the pod's node |
| `HelpersK3d.WebScenario` | helpers/k3d.go:29-56 | Pod web-0 with container app (containerd://deadbeef) on k3d-worker-1: docker enters k3d-worker-1 and runc enters deadbeef |
| `RootK3d.IsK3d` | k3d.go:12-25 | A node-list error gives (false, err); otherwise true exactly when some node name starts with "k3d" |
| `RootK3d.RootIntoPod` | k3d.go:27-49 | Pod and node lookup errors come first and unchanged; otherwise argv is exec, -ti, node, sh, -c, and the runc line for the first status's id followed by " sh" |
| `RootK3d.ExecIntoDockerContainer` | k3d.go:51-73 | Runs program "docker" with argv exec, -ti, the container name, then the commands; returns nil |
| `RootK3d.RootRuncIsHelpersRunc` | k3d.go:39-41 | The runc line of rootIntoPod equals the helpers' runc line for the command ["sh"] |
| `RootK3d.RootAgreesWithHelpers` | k3d.go:27-49 | When the first status has an id, rootIntoPod equals the helpers' root "sh" in the container named by that status |
| `RootK3d.RootAgreesWithPickerEntry` | k3d.go:27-49 | Entering a pod by bare name equals entering "pod: c" through the helpers, with c the container name of the pod's first status (not necessarily the first container of the pod spec, whose names the picker lists) |
| `RootK3d.RootIgnoresEmptyId` | k3d.go:38-43 | With an empty first id, rootIntoPod still runs runc, while the helpers report the container as not found |

## Left out

- Client bootstrap (`Init` with its once-only singleton and panics, and the cluster configuration loaders with flag parsing and kubeconfig file reading, helpers/kube.go:21-98): configuration I/O and global state. The `Client` value stands in for the handle they build.
- Real API calls: replaced by lookups in the `ApiServer` snapshot. A get that finds several objects with the same key returns the first in listing order. The snapshot does not enforce unique names.
- Empty names: the real API refuses a get with an empty name, but the snapshot does not. It may hold a `Node("")`, and then an unscheduled pod (`nodeName` "") resolves to that node in `GetNodeOfPod`. There is no well-formedness predicate on the snapshot.
- `GetLogsOfPod` and `DeletePod`: log stream copying and a delete, thin I/O over the API.
- Process execution: the stdio wiring and `cmd.Run()` of the docker call are not modelled. A failing docker ends the whole process through `log.Fatal`, and that path is not modelled either. `ExecIntoDockerContainer` returns the `Invocation` that would run.
- The interactive picker of main.go, its styles, `os.Args` and `os.Exit`: user interface. Only its entry format "%s: %s" is modelled, as `HelpersK3d.PickerItem`.
- helpers/kube_test.go: it needs a live cluster and asserts nothing that can be stated over the model.
- Panics are preconditions:
  - `RootIntoPodContainer` requires the identifier to contain ": ", because indexing the split at 1 panics otherwise.
  - `RootIntoPod` requires a found, scheduled pod to report at least one container status.
  - `GetNamespace` requires the current context to exist in the kubeconfig.
  - `GetHostPathOfVolumeMount` requires the volume to be backed by a claim.
- Go pointers: pods are values, so "the same `*Pod` repeated" in `GetPodsByImage` is modelled as equal values. The nil-versus-empty slice distinction of `GetPodsByNamespace` is not modelled.
- The older `k3d.go` calls client functions that are not defined in the files shown. Here they are the same snapshot queries as the helpers, with `getPodByName` resolving in the current namespace.

## Behaviour of the code worth knowing

- An empty command vector does not default to a shell. `strings.Join` turns it into "", so the runc line ends in a space and has no command. All callers pass one word: `RootIntoNamespacePodContainer` passes `[shell]` and `RootIntoPodContainer` passes "sh".
- Only the older `rootIntoPod` takes a bare pod name. In the helpers, `RootIntoPodContainer` always needs "pod: container". `rootIntoPod` uses the first container status and does not check for an empty id (`RootK3d.RootIgnoresEmptyId`).
- A missing pod or node is reported by returning the client's error unchanged. The code builds its own message, "container c not found in pod p", only when the container has no id.
