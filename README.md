# k3d wrapper: manifest waves and cluster bookkeeping

This project models `bazel/third_party/k3d/wrapper.py`, the script that manages a
repository's local k3d clusters and applies its Kubernetes manifests, and proves
properties of that model in Dafny.

What the script does:

- It reads an operation name and a cluster name from its environment and dispatches
  on the operation.
- The cluster and registry operations list k3d's clusters or registries and then
  create or delete one when an existence check allows it.
  - A cluster counts as managed when one of its nodes carries the environment entry
    `00RG_MANAGED=1`.
  - The registry is `local-registry` on port 5555. `k3d` lists it as
    `k3d-local-registry`.
- `apply_manifests` applies the cluster's manifest directory
  `config/clusters/<name>`.
  - If the directory holds a `kustomization.yaml`, it is applied once with
    `kubectl apply -k`.
  - Otherwise every `wave*` entry is applied in sorted order.
- Each wave does three things, in order:
  1. It runs the `preApply` hooks of its `wave.yaml`.
  2. It applies its own directory.
  3. It runs its `postApply` hooks.
- The only hook is `waitForCRD`. It polls `kubectl get crd <name>` until 180 seconds
  after the hook started. Once the CRD exists, it issues one
  `kubectl wait --for=condition=established` with the rest of that budget.
- A failed wait, a timeout, or an unrecognised hook ends the process.

How the model works:

- The wrapper's observable behaviour is the ordered list of commands it issues,
  together with a success or fatal outcome.
- The outside world is an oracle, `Env.World`. It gives:
  - each command's exit status and duration, as a function of the clock reading at
    which the command is issued;
  - the cluster and registry listings.
- Every command moves an integer clock forward by at least one tick, so the polling
  loop terminates. A tick is one second, so the 180-second budget is 180 ticks.
- Each operation is written twice, once in each of two forms:
  - A pure function (`Waves.Poll`, `Waves.WaveRun`, `Clusters.DeleteAllClustersRun`,
    `Wrapper.OperationRun`, …) returns a `Run`: the timestamped commands, the
    outcome and the final clock reading.
  - An imperative method over an `Env.Shell` appends the same commands to a trace.
    The shell holds the world, the clock and the trace.
- Each method's postcondition says its trace and clock are exactly those of its
  function. The loops of the source (the polling `while`, the hook loop, the wave
  loop and the cluster-deletion loop) are `while` loops proved against those
  functions.
- The properties are lemmas about the functions.

The parsed `wave.yaml` is a `Values.Value`. Python's behaviour on malformed documents
is modelled:

- Subscripting and `.get` on the wrong kind of node raise `KeyError`, `TypeError` or
  `AttributeError`.
- Truthiness follows Python.
- `sorted` on paths is `Order.Sort`. It is proved to be the unique ascending
  permutation under Python's string order.

## Behaviour as written

Several points of the code are easy to misread. The model follows the code as
written:

- The 180-second deadline is computed inside the hook loop, once per hook
  (wrapper.py line 107). It is not one deadline per invocation.
- There is no pause between polls (lines 108-109).
- After one successful `waitForCRD`, the `return` at line 115 leaves the whole hook
  run, so later hooks in the list never run. Every other way through a hook ends the
  process, so only the first hook of a list ever runs (`Waves.OnlyFirstHookRuns`).
- The exit status of `kubectl apply -k` is ignored (lines 130, 138). There is no
  rollout wait anywhere.
- A wave directory without `wave.yaml` does not skip its hooks. `wave_info` is then
  unbound, and the hook run raises `UnboundLocalError` before anything is applied
  (lines 124-129). The model ends such a run with `Uncaught(UnboundLocalError)`.
- A `wave.yaml` that `yaml.safe_load` rejects (line 126) ends the process with the
  parser's exception, also before anything is applied. `Waves.ClusterFiles` holds
  `Raised(YAMLError)` for such a file (`Waves.WaveWithoutDocumentFails`).

## Model

| member | source | states |
|---|---|---|
| `Values.Truthy` | bazel/third_party/k3d/wrapper.py:104 | Python's truth value of a document node, as `if x:` tests it; a model of the test, whose consequences are stated by `Waves.UnrecognizedHookExits` |
| `Values.Subscript` | bazel/third_party/k3d/wrapper.py:99-105 | `v[key]`: the entry of a mapping, `KeyError` for a missing key, `TypeError` on any other node; its consequences are stated by `Waves.MissingHooksAreNoOp` and `Waves.HooksFailures` |
| `Values.Get` | bazel/third_party/k3d/wrapper.py:104 | `v.get(key)`: the entry or `None` on a mapping, `AttributeError` on any other node; its consequences are stated by `Waves.HookFailures` |
| `Env.Next` | bazel/third_party/k3d/wrapper.py:107-108 | the clock after a command is strictly later than when it was issued |
| `Env.Issue` | bazel/third_party/k3d/wrapper.py:130-138 | a `subprocess.run` whose exit status is ignored: one command at the current clock, outcome Ok whatever the status; stated by `Waves.WaveOrder` and `Waves.KustomizationAppliesOnce` |
| `Env.Then` | bazel/third_party/k3d/wrapper.py:129-131 | consecutive statements: nothing catches `SystemExit`, so a fatal first part ends the run and the second part never starts; stated by `Waves.FatalWaveIsLast` and `Waves.WaveOrder` |
| `Env.Shell.Clock` | bazel/third_party/k3d/wrapper.py:107-111 | `time.time()` reads the shell's clock and changes nothing |
| `Env.Shell.Exec` | bazel/third_party/k3d/wrapper.py:109 | running a command appends it to the trace at the current clock, advances the clock to `Next`, at least one tick later, and returns the world's exit status |
| `Env.Shell.ClusterListing` | bazel/third_party/k3d/wrapper.py:26-27 | issues `cluster list` and returns the world's listing at that moment |
| `Env.Shell.RegistryListing` | bazel/third_party/k3d/wrapper.py:38-39 | issues `registry list` and returns the world's listing at that moment |
| `Order.Less` | bazel/third_party/k3d/wrapper.py:140 | Python's `<` on `str`, the order `sorted` uses: by code point, a proper prefix first; stated by `Order.LessTotal`, `Order.LessTransitive` and `Order.LessIrreflexive` |
| `Order.LessTotal` | bazel/third_party/k3d/wrapper.py:140 | Python's string order is total: two strings are equal or one is below the other |
| `Order.LessTransitive` | bazel/third_party/k3d/wrapper.py:140 | Python's string order is transitive |
| `Order.LessUnderPrefix` | bazel/third_party/k3d/wrapper.py:140 | a common leading part does not change the order of two paths |
| `Order.Sort` | bazel/third_party/k3d/wrapper.py:140 | `sorted` returns an ascending permutation of its input |
| `Order.SortedUnique` | bazel/third_party/k3d/wrapper.py:140 | two ascending sequences with the same elements are equal, so any correct sort gives the same order |
| `Order.Prefixed` | bazel/third_party/k3d/wrapper.py:140 | the glob's paths are the names each joined to `<dir>/`, in the same order and number |
| `Order.SortPrefixed` | bazel/third_party/k3d/wrapper.py:140 | sorting the `<dir>/wave*` paths orders them by their wave names |
| `Clusters.AnyNodeManaged` | bazel/third_party/k3d/wrapper.py:28 | the `any(...)` over a cluster's nodes; characterised by `Clusters.NodesManagedIff` |
| `Clusters.IsManaged` | bazel/third_party/k3d/wrapper.py:28 | the filter's test on one cluster; characterised by `Clusters.ManagedIff` |
| `Clusters.AnyNamed` | bazel/third_party/k3d/wrapper.py:33 | `any([c["name"] == _CLUSTER_NAME ...])`; characterised by `Clusters.AnyNamedIff` |
| `Clusters.ClusterExists` | bazel/third_party/k3d/wrapper.py:31-33 | `_cluster_exists` on a listing; characterised by `Clusters.ClusterExistsIff` |
| `Clusters.RegistryExists` | bazel/third_party/k3d/wrapper.py:36-40 | `_registry_exists` on a listing; characterised by `Clusters.RegistryExistsIff` |
| `Clusters.CreateClusterRun` | bazel/third_party/k3d/wrapper.py:43-47 | the commands, outcome and clock of `create_cluster`; stated by `Clusters.CreateClusterGuard` and `Clusters.CreateClusterSucceeds` |
| `Clusters.DeleteClusterRun` | bazel/third_party/k3d/wrapper.py:57-66 | the same for `delete_cluster`; stated by `Clusters.DeleteClusterGuard` and `Clusters.DeleteClusterSucceeds` |
| `Clusters.DeleteEachRun` | bazel/third_party/k3d/wrapper.py:71-72 | the same for the deletion loop over a given cluster list; stated by `Clusters.DeleteEachShape` |
| `Clusters.DeleteAllClustersRun` | bazel/third_party/k3d/wrapper.py:69-72 | the same for `delete_all_clusters`; stated by `Clusters.DeleteAllInListOrder` and `Clusters.DeleteAllClustersSucceeds` |
| `Clusters.CreateRegistryRun` | bazel/third_party/k3d/wrapper.py:75-79 | the same for `create_registry`; stated by `Clusters.CreateRegistryGuard` and `Clusters.CreateRegistrySucceeds` |
| `Clusters.DeleteRegistryRun` | bazel/third_party/k3d/wrapper.py:89-93 | the same for `delete_registry`; stated by `Clusters.DeleteRegistryGuard` and `Clusters.DeleteRegistrySucceeds` |
| `Clusters.CreateClusterSucceeds` | bazel/third_party/k3d/wrapper.py:43-47 | `create_cluster` never ends the process and issues only `k3d` commands |
| `Clusters.DeleteClusterSucceeds` | bazel/third_party/k3d/wrapper.py:63-66 | `delete_cluster` never ends the process and issues only `k3d` commands |
| `Clusters.DeleteAllClustersSucceeds` | bazel/third_party/k3d/wrapper.py:69-72 | `delete_all_clusters` never ends the process and issues only `k3d` commands |
| `Clusters.CreateRegistrySucceeds` | bazel/third_party/k3d/wrapper.py:75-79 | `create_registry` never ends the process and issues only `k3d` commands |
| `Clusters.DeleteRegistrySucceeds` | bazel/third_party/k3d/wrapper.py:89-93 | `delete_registry` never ends the process and issues only `k3d` commands |
| `Clusters.Managed` | bazel/third_party/k3d/wrapper.py:28 | the filter keeps exactly the listed clusters that are managed; with `Clusters.ManagedAppend` and `Clusters.ManagedSingle` it keeps their order and multiplicity |
| `Clusters.Names` | bazel/third_party/k3d/wrapper.py:53-54 | the `cluster["name"]` of each cluster, in order: same length, and each name at its cluster's position |
| `Clusters.ManagedIff` | bazel/third_party/k3d/wrapper.py:28 | a cluster is managed iff some node's `env` contains `00RG_MANAGED=1` |
| `Clusters.ManagedAppend` | bazel/third_party/k3d/wrapper.py:28 | the filter keeps listing order: it distributes over concatenation |
| `Clusters.ClusterExistsIff` | bazel/third_party/k3d/wrapper.py:31-33 | the cluster exists iff a managed listed cluster has the configured name |
| `Clusters.RegistryExistsIff` | bazel/third_party/k3d/wrapper.py:36-40 | the registry exists iff a listed registry is named `k3d-local-registry` |
| `Clusters.CreateClusterGuard` | bazel/third_party/k3d/wrapper.py:43-47 | `create_cluster` lists once, then issues `cluster create --config` exactly when no managed cluster has the name; it never fails |
| `Clusters.DeleteClusterGuard` | bazel/third_party/k3d/wrapper.py:63-66 | `delete_cluster` lists once, then issues `cluster delete <name>` exactly when a managed cluster has the name |
| `Clusters.DeleteEachShape` | bazel/third_party/k3d/wrapper.py:71-72 | the deletion loop issues one `cluster delete` per cluster, in order, and nothing else |
| `Clusters.DeleteAllInListOrder` | bazel/third_party/k3d/wrapper.py:69-72 | `delete_all_clusters` lists once and then deletes each managed cluster once, in listing order |
| `Clusters.CreateRegistryGuard` | bazel/third_party/k3d/wrapper.py:75-79 | `create_registry` issues `registry create local-registry --port 5555` exactly when `k3d-local-registry` is not listed |
| `Clusters.DeleteRegistryGuard` | bazel/third_party/k3d/wrapper.py:89-93 | `delete_registry` issues `registry delete local-registry` exactly when `k3d-local-registry` is listed |
| `Clusters.GetClusters` | bazel/third_party/k3d/wrapper.py:24-28 | issues one `cluster list` and returns the managed clusters of its output |
| `Clusters.ClusterExistsNow` | bazel/third_party/k3d/wrapper.py:31-33 | issues one `cluster list` and answers the existence check on its output |
| `Clusters.RegistryExistsNow` | bazel/third_party/k3d/wrapper.py:36-40 | issues one `registry list` and answers the existence check on its output |
| `Clusters.CreateCluster` | bazel/third_party/k3d/wrapper.py:43-47 | trace and clock are those of `CreateClusterRun` |
| `Clusters.ListClusters` | bazel/third_party/k3d/wrapper.py:50-54 | issues one `cluster list` and yields the managed clusters' names in listing order |
| `Clusters.DeleteCluster` | bazel/third_party/k3d/wrapper.py:63-66 | trace and clock are those of `DeleteClusterRun` |
| `Clusters.DeleteEach` | bazel/third_party/k3d/wrapper.py:71-72 | the `for` loop's trace and clock are those of `DeleteEachRun` |
| `Clusters.DeleteAllClusters` | bazel/third_party/k3d/wrapper.py:69-72 | trace and clock are those of `DeleteAllClustersRun` |
| `Clusters.CreateRegistry` | bazel/third_party/k3d/wrapper.py:75-79 | trace and clock are those of `CreateRegistryRun` |
| `Clusters.ListRegistries` | bazel/third_party/k3d/wrapper.py:82-86 | issues one `registry list` and yields `local-registry` exactly when it exists |
| `Clusters.DeleteRegistry` | bazel/third_party/k3d/wrapper.py:89-93 | trace and clock are those of `DeleteRegistryRun` |
| `Waves.ClusterDir` | bazel/third_party/k3d/wrapper.py:136 | the manifest directory `config/clusters/<name>`; stated by `Waves.KustomizationAppliesOnce` |
| `Waves.IsWaveName` | bazel/third_party/k3d/wrapper.py:140 | what the pattern `wave*` matches: a name whose first four characters are `wave` |
| `Waves.WaveNames` | bazel/third_party/k3d/wrapper.py:140 | the glob keeps exactly the listed entries whose names start with `wave`, each as often as the listing holds it |
| `Waves.WaveDirs` | bazel/third_party/k3d/wrapper.py:140 | `sorted(glob.glob("<dir>/wave*"))`; stated by `Waves.WaveDirsSortedByName` |
| `Waves.WaveDirsSortedByName` | bazel/third_party/k3d/wrapper.py:140 | the wave paths are the cluster directory joined with the sorted wave names: ascending, and each `wave*` entry appears exactly as often as in the listing, other entries not at all |
| `Waves.Poll` | bazel/third_party/k3d/wrapper.py:107-117 | the commands, ending and clock of the polling loop; stated by `Waves.PollShape`, `Waves.PollTimesOut` and `Waves.PollWaitsOnce` |
| `Waves.HookStep` | bazel/third_party/k3d/wrapper.py:104-119 | the same for one turn of `for hook in hooks`; stated by `Waves.HookNeverContinues` and `Waves.HookFailures` |
| `Waves.HookLoop` | bazel/third_party/k3d/wrapper.py:103-119 | the same for the hook loop; stated by `Waves.OnlyFirstHookRuns` and `Waves.UnrecognizedHookExits` |
| `Waves.HooksOf` | bazel/third_party/k3d/wrapper.py:98-101 | `wave_info["spec"]["hooks"][hook_type]`, or the exception it raises; stated by `Waves.MissingHooksAreNoOp` |
| `Waves.Entries` | bazel/third_party/k3d/wrapper.py:103 | what `for hook in hooks` iterates over, or the exception it raises; stated by `Waves.HooksFailures` |
| `Waves.HooksRun` | bazel/third_party/k3d/wrapper.py:96-119 | the same for `_run_wave_hooks`; stated by `Waves.HooksIssueOnlyHookCommands` and `Waves.HooksFailures` |
| `Waves.WaveRun` | bazel/third_party/k3d/wrapper.py:122-131 | the same for `_apply_wave`; stated by `Waves.WaveOrder` and `Waves.WaveAppliesOnlyItself` |
| `Waves.WavesRun` | bazel/third_party/k3d/wrapper.py:140-141 | the same for the wave loop; stated by `Waves.WavesApplyInOrder` and `Waves.FatalWaveIsLast` |
| `Waves.ApplyManifestsRun` | bazel/third_party/k3d/wrapper.py:134-141 | the same for `apply_manifests`; stated by `Waves.KustomizationAppliesOnce` and `Waves.WavesInSortedOrder` |
| `Waves.WaveWithoutDocumentFails` | bazel/third_party/k3d/wrapper.py:124-129 | a wave without `wave.yaml` ends with `UnboundLocalError`, and one whose `wave.yaml` does not parse with the parser's exception, before any command |
| `Waves.PollShape` | bazel/third_party/k3d/wrapper.py:107-117 | the CRD wait issues only `get crd` and established-wait commands, each `get crd` before the deadline, the wait only last; it times out iff the clock reaches the deadline while polling, and only after every poll failed |
| `Waves.PollTimesOut` | bazel/third_party/k3d/wrapper.py:107-109 | a CRD that never appears ends in "Timed out", after only `get crd` polls, all before the deadline |
| `Waves.PollWaitsOnce` | bazel/third_party/k3d/wrapper.py:110-115 | once `get crd` succeeds, exactly one established-wait follows with budget `deadline - now`; its exit status decides between returning and "Error waiting for CRD" |
| `Waves.WaitForCrdBudget` | bazel/third_party/k3d/wrapper.py:107-112 | the established-wait's budget is below the full 180 |
| `Waves.HookNeverContinues` | bazel/third_party/k3d/wrapper.py:103-119 | no hook falls through to the next one |
| `Waves.OnlyFirstHookRuns` | bazel/third_party/k3d/wrapper.py:103-119 | the hook run over a list equals the hook run over its first hook |
| `Waves.UnrecognizedHookExits` | bazel/third_party/k3d/wrapper.py:118-119 | a hook without a truthy `waitForCRD` ends the process as "Unrecognized" before any command |
| `Waves.MissingHooksAreNoOp` | bazel/third_party/k3d/wrapper.py:98-101 | a missing `spec`, `hooks` or hook-type key makes the hook run an immediate success |
| `Waves.HooksIssueOnlyHookCommands` | bazel/third_party/k3d/wrapper.py:96-119 | a hook run issues only CRD commands, none before its start |
| `Waves.WaveOrder` | bazel/third_party/k3d/wrapper.py:128-131 | a wave's commands are its `preApply` run, then the one `apply -k` of the wave, then its `postApply` run started when the apply ends, whose outcome is the wave's; a failed `preApply` applies nothing |
| `Waves.WaveAppliesOnlyItself` | bazel/third_party/k3d/wrapper.py:122-131 | a wave applies no directory but its own, and applies it when it succeeds |
| `Waves.WavesApplyInOrder` | bazel/third_party/k3d/wrapper.py:140-141 | the applied directories are a prefix of the wave list, all of it on success |
| `Waves.FatalWaveIsLast` | bazel/third_party/k3d/wrapper.py:140-141 | after a fatal wave nothing of a later wave is issued: the run equals the run over the waves up to the failing one |
| `Waves.KustomizationAppliesOnce` | bazel/third_party/k3d/wrapper.py:136-138 | with `kustomization.yaml`, exactly one `apply -k config/clusters/<name>` is issued, and nothing else |
| `Waves.WavesInSortedOrder` | bazel/third_party/k3d/wrapper.py:136-141 | without it, the applied directories are a prefix of the sorted wave paths, all of them on success |
| `Waves.NoWavesNoCommands` | bazel/third_party/k3d/wrapper.py:140-141 | without `wave*` entries nothing is issued and the run succeeds |
| `Waves.WaveIssuesOnlyKubectl` | bazel/third_party/k3d/wrapper.py:122-131 | a wave issues only `kubectl` commands |
| `Waves.WavesIssueOnlyKubectl` | bazel/third_party/k3d/wrapper.py:140-141 | the wave loop issues only `kubectl` commands |
| `Waves.ApplyManifestsOnlyKubectl` | bazel/third_party/k3d/wrapper.py:134-141 | `apply_manifests` issues only `kubectl` commands |
| `Waves.HookFailures` | bazel/third_party/k3d/wrapper.py:104-119 | a hook ends the process only by a CRD failure naming the hook's `waitForCRD.name`, by "Unrecognized" carrying the hook type and the hook, or by an exception |
| `Waves.HooksFailures` | bazel/third_party/k3d/wrapper.py:96-119 | a hook run ends the process only that way, through the first hook of its list, and reports an unrecognised hook under its own hook type |
| `Waves.WaveFailures` | bazel/third_party/k3d/wrapper.py:122-131 | a wave ends the process only by a CRD failure, an unrecognised `preApply` or `postApply` hook, or an exception |
| `Waves.WavesFailures` | bazel/third_party/k3d/wrapper.py:140-141 | the same holds for the wave loop |
| `Waves.ApplyManifestsFailures` | bazel/third_party/k3d/wrapper.py:134-141 | `apply_manifests` fails only that way, and never with `kustomization.yaml` |
| `Waves.WaitForCrd` | bazel/third_party/k3d/wrapper.py:107-117 | the polling `while` loop's trace, clock and ending are those of `Poll` from the hook's start with deadline start + 180 |
| `Waves.RunHook` | bazel/third_party/k3d/wrapper.py:104-119 | one hook's trace, clock and ending are those of `HookStep` |
| `Waves.RunWaveHooks` | bazel/third_party/k3d/wrapper.py:96-119 | the hook loop's trace, clock and outcome are those of `HooksRun` |
| `Waves.ApplyWave` | bazel/third_party/k3d/wrapper.py:122-131 | a wave's trace, clock and outcome are those of `WaveRun` |
| `Waves.ApplyWaves` | bazel/third_party/k3d/wrapper.py:140-141 | the wave loop's trace, clock and outcome are those of `WavesRun` |
| `Waves.ApplyManifests` | bazel/third_party/k3d/wrapper.py:134-141 | trace, clock and outcome are those of `ApplyManifestsRun` |
| `Wrapper.IsKnownOperation` | bazel/third_party/k3d/wrapper.py:144-165 | the nine operation names the `match` handles |
| `Wrapper.CreateAllRun` | bazel/third_party/k3d/wrapper.py:147-150 | the commands, outcome and clock of the `create_cluster` operation; stated by `Wrapper.CreateAllOrder` |
| `Wrapper.DeleteAllRun` | bazel/third_party/k3d/wrapper.py:163-165 | the same for `delete_all`; stated by `Wrapper.DeleteAllOrder` |
| `Wrapper.OperationRun` | bazel/third_party/k3d/wrapper.py:144-167 | the same for the whole `match`; stated by `Wrapper.UnknownOperationExits`, `Wrapper.KnownOperationNeverUnknown` and `Wrapper.K3dOperationsIssueNoKubectl` |
| `Wrapper.UnknownOperationExits` | bazel/third_party/k3d/wrapper.py:144-167 | an operation outside the nine names ends with "Unknown operation" before any command, and no known name does |
| `Wrapper.KnownOperationNeverUnknown` | bazel/third_party/k3d/wrapper.py:144-165 | a known operation fails only in `apply_manifests` or `create_cluster`, and then through a hook or an exception |
| `Wrapper.K3dOperationsIssueNoKubectl` | bazel/third_party/k3d/wrapper.py:151-165 | the seven other operations succeed and issue only `k3d` commands |
| `Wrapper.ApplyManifestsIssuesOnlyKubectl` | bazel/third_party/k3d/wrapper.py:145-146 | the `apply_manifests` operation issues only `kubectl` commands |
| `Wrapper.CreateAllOrder` | bazel/third_party/k3d/wrapper.py:147-150 | `create_cluster` runs the registry step, then the cluster step, then the manifests; every `k3d` command precedes every `kubectl` command; the outcome is the manifest step's |
| `Wrapper.DeleteAllOrder` | bazel/third_party/k3d/wrapper.py:163-165 | `delete_all` deletes each managed cluster once, in listing order, then lists the registries and deletes ours exactly when it is listed |
| `Wrapper.CreateAll` | bazel/third_party/k3d/wrapper.py:147-150 | trace, clock and outcome are those of `CreateAllRun` |
| `Wrapper.DeleteAll` | bazel/third_party/k3d/wrapper.py:163-165 | trace and clock are those of `DeleteAllRun`, which succeeds |
| `Wrapper.Dispatch` | bazel/third_party/k3d/wrapper.py:144-167 | trace, clock and outcome are those of `OperationRun` |

## Left out

- Process execution, JSON and YAML parsing, the glob, file-existence tests and
  environment reads (wrapper.py lines 13-17) are oracle inputs. The model receives
  the world's answers, the parsed listings, the directory listing
  (`Waves.ClusterFiles`) and the configuration (`Env.Config`).
- An unset environment variable (`None`) is not modelled. The operation, cluster
  name and config path are always strings.
- The binaries' paths (`00RG_K3D_BINARY`, `00RG_KUBECTL_BINARY`) are left out of
  the commands.
- Printed messages are not modelled. That covers "Created cluster …" and the
  listing headers, the text of `sys.exit` messages beyond the failure they name, and
  the `json.dumps` rendering of an unrecognised hook. The failure keeps the hook's
  parsed value instead.
- `list_clusters` and `list_registries` yield the names they print instead of
  printing them.
- Malformed `k3d` JSON is not modelled. A cluster without `nodes` or a node without
  `env` would raise; the model's `Env.Cluster` always has both.
- Wall-clock time is an integer clock with one tick per second. The float
  `time_left` and its formatting into `--timeout=<n>s` become the integer
  `deadline - now`.
- `Waves.Poll`: every command takes at least one whole second in the model, so one
  `waitForCRD` issues at most 180 `get crd` polls. Polls that return in less than a
  second are not modelled.
- `subprocess.run` raising instead of returning is not modelled. That happens when
  a binary is missing or its path variable is unset (`OSError`, `TypeError`). Every
  command gets an exit status from the world.
- Reading a `wave.yaml` that exists but cannot be read (`Path.read_text`, line 126)
  is not modelled separately. The model has a parser error or a document for each
  such file.
- YAML values are restricted to: null, booleans, integers, strings, lists, and
  mappings with string keys. Floats, dates and non-string keys are left out.
- A CRD name containing a NUL byte, which makes `subprocess.run` raise, is treated
  like any other name.
- Glob details such as symbolic links and entries that are not directories are left
  out. Every listed `wave*` entry counts as a wave directory.
- `bazel/k3d_wrapper.py` is not part of this model. It only prints environment
  variables and runs `k3d version`.
- The Go and Rust services and their tests are not part of this model. They are
  HTTP and tracing plumbing and one-line formatting around random strings.
