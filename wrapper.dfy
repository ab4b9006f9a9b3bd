/** The wrapper's entry point: the operation named by the environment selects a fixed
    sequence of the registry, cluster and manifest operations. */
module Wrapper {
  import opened Env
  import opened Clusters
  import opened Waves

  /** The operations the dispatch recognises. */
  predicate IsKnownOperation(op: string)
  {
    op in {"apply_manifests", "create_cluster", "list_clusters", "delete_cluster",
           "delete_all_clusters", "create_registry", "list_registries", "delete_registry",
           "delete_all"}
  }

  /** `create_cluster` as an operation: registry, then cluster, then manifests. */
  function CreateAllRun(w: World, cfg: Config, fs: ClusterFiles, t: int): Run
  {
    var reg := CreateRegistryRun(w, t);
    var cl := CreateClusterRun(w, cfg, reg.end);
    Then(reg, Then(cl, ApplyManifestsRun(w, cfg, fs, cl.end)))
  }

  /** `delete_all` as an operation: every managed cluster, then the registry. */
  function DeleteAllRun(w: World, t: int): Run
  {
    var cls := DeleteAllClustersRun(w, t);
    Then(cls, DeleteRegistryRun(w, cls.end))
  }

  /** The top-level `match` on the operation, started at `t`. */
  function OperationRun(w: World, cfg: Config, fs: ClusterFiles, t: int): Run
  {
    match cfg.operation
    case "apply_manifests" => ApplyManifestsRun(w, cfg, fs, t)
    case "create_cluster" => CreateAllRun(w, cfg, fs, t)
    case "list_clusters" => Issue(w, ClusterList, t)
    case "delete_cluster" => DeleteClusterRun(w, cfg, t)
    case "delete_all_clusters" => DeleteAllClustersRun(w, t)
    case "create_registry" => CreateRegistryRun(w, t)
    case "list_registries" => Issue(w, RegistryList, t)
    case "delete_registry" => DeleteRegistryRun(w, t)
    case "delete_all" => DeleteAllRun(w, t)
    case _ => Run([], Fatal(UnknownOperation(cfg.operation)), t)
  }

  // ----- What the dispatch promises -----

  /** An operation name outside the nine recognised ones stops the process with
      "Unknown operation" before any command is issued, and only such a name does. */
  lemma UnknownOperationExits(w: World, cfg: Config, fs: ClusterFiles, t: int)
    ensures var r := OperationRun(w, cfg, fs, t);
      !IsKnownOperation(cfg.operation) <==>
        (r.events == [] && r.outcome == Fatal(UnknownOperation(cfg.operation)))
  {
    if IsKnownOperation(cfg.operation) {
      KnownOperationNeverUnknown(w, cfg, fs, t);
    }
  }

  /** A recognised operation never ends in "Unknown operation": only the two that
      apply manifests can fail at all, and then through a hook or an exception. */
  lemma KnownOperationNeverUnknown(w: World, cfg: Config, fs: ClusterFiles, t: int)
    requires IsKnownOperation(cfg.operation)
    ensures var r := OperationRun(w, cfg, fs, t);
      r.outcome.Fatal? ==>
        IsWaveFailure(r.outcome.failure) &&
        (cfg.operation == "apply_manifests" || cfg.operation == "create_cluster")
  {
    var op := cfg.operation;
    if op == "apply_manifests" {
      ApplyManifestsFailures(w, cfg, fs, t);
    } else if op == "create_cluster" {
      CreateAllOrder(w, cfg, fs, t);
      var reg := CreateRegistryRun(w, t);
      var cl := CreateClusterRun(w, cfg, reg.end);
      ApplyManifestsFailures(w, cfg, fs, cl.end);
    } else {
      K3dOperationsIssueNoKubectl(w, cfg, fs, t);
    }
  }

  /** The operations other than the two that apply manifests never fail and talk
      only to `k3d`. */
  lemma K3dOperationsIssueNoKubectl(w: World, cfg: Config, fs: ClusterFiles, t: int)
    requires IsKnownOperation(cfg.operation)
    requires cfg.operation != "apply_manifests" && cfg.operation != "create_cluster"
    ensures var r := OperationRun(w, cfg, fs, t);
      r.outcome == Ok && AllK3d(r.events)
  {
    var op := cfg.operation;
    if op == "delete_cluster" {
      DeleteClusterSucceeds(w, cfg, t);
    } else if op == "delete_all_clusters" {
      DeleteAllClustersSucceeds(w, t);
    } else if op == "create_registry" {
      CreateRegistrySucceeds(w, t);
    } else if op == "delete_registry" {
      DeleteRegistrySucceeds(w, t);
    } else if op == "delete_all" {
      DeleteAllShape(w, t);
    }
  }

  lemma DeleteAllShape(w: World, t: int)
    ensures var cls := DeleteAllClustersRun(w, t);
      var reg := DeleteRegistryRun(w, cls.end);
      var r := DeleteAllRun(w, t);
      r.events == cls.events + reg.events && r.outcome == Ok && AllK3d(r.events)
  {
    var cls := DeleteAllClustersRun(w, t);
    DeleteAllClustersSucceeds(w, t);
    DeleteRegistrySucceeds(w, cls.end);
    var reg := DeleteRegistryRun(w, cls.end);
    ThenAfterOk(cls, reg);
    K3dAppend(cls.events, reg.events);
  }

  /** `apply_manifests` as an operation talks only to `kubectl`. */
  lemma ApplyManifestsIssuesOnlyKubectl(w: World, cfg: Config, fs: ClusterFiles, t: int)
    requires cfg.operation == "apply_manifests"
    ensures AllKubectl(OperationRun(w, cfg, fs, t).events)
  {
    ApplyManifestsOnlyKubectl(w, cfg, fs, t);
  }

  /** `create_cluster` as an operation first ensures the registry, then the cluster,
      and only then applies the manifests: every `k3d` command comes before every
      `kubectl` command, and the outcome is that of the manifest step. */
  lemma CreateAllOrder(w: World, cfg: Config, fs: ClusterFiles, t: int)
    ensures var reg := CreateRegistryRun(w, t);
      var cl := CreateClusterRun(w, cfg, reg.end);
      var apply := ApplyManifestsRun(w, cfg, fs, cl.end);
      var r := CreateAllRun(w, cfg, fs, t);
      r.events == reg.events + cl.events + apply.events && r.outcome == apply.outcome &&
      r.end == apply.end && AllK3d(reg.events + cl.events) && AllKubectl(apply.events)
  {
    var reg := CreateRegistryRun(w, t);
    CreateRegistrySucceeds(w, t);
    var cl := CreateClusterRun(w, cfg, reg.end);
    CreateClusterSucceeds(w, cfg, reg.end);
    ThreeSteps(reg, cl, ApplyManifestsRun(w, cfg, fs, cl.end));
    K3dAppend(reg.events, cl.events);
    ApplyManifestsOnlyKubectl(w, cfg, fs, cl.end);
  }

  lemma ThreeSteps(a: Run, b: Run, c: Run)
    requires a.outcome == Ok && b.outcome == Ok
    ensures Then(a, Then(b, c)) == Run(a.events + b.events + c.events, c.outcome, c.end)
  {
    assert a.events + (b.events + c.events) == a.events + b.events + c.events;
  }

  /** `delete_all` deletes every managed cluster once, in listing order, and then
      lists the registries and deletes ours exactly when it is listed. */
  lemma DeleteAllOrder(w: World, t: int)
    ensures var ms := Managed(w.clusters(t));
      var r := DeleteAllRun(w, t);
      var n := |ms| + 1;
      r.outcome == Ok && n + 1 <= |r.events| <= n + 2 &&
      r.events[0] == Event(ClusterList, t) &&
      (forall i :: 0 <= i < |ms| ==> r.events[i + 1].cmd == ClusterDelete(ms[i].name)) &&
      r.events[n].cmd == RegistryList &&
      (|r.events| == n + 2 <==>
        exists g :: g in w.registries(r.events[n].at) && g.name == "k3d-local-registry") &&
      (|r.events| == n + 2 ==> r.events[n + 1].cmd == RegistryDelete("local-registry"))
  {
    var cls := DeleteAllClustersRun(w, t);
    DeleteAllShape(w, t);
    DeleteAllInListOrder(w, t);
    DeleteRegistryGuard(w, cls.end);
    var reg := DeleteRegistryRun(w, cls.end);
    var r := DeleteAllRun(w, t);
    var n := |cls.events|;
    assert r.events[n] == reg.events[0] && reg.events[0].at == cls.end;
    assert forall i :: 0 <= i < n ==> r.events[i] == cls.events[i];
  }

  // ----- The dispatch against a shell -----

  /** The `create_cluster` case of the dispatch. */
  method CreateAll(sh: Shell, cfg: Config, fs: ClusterFiles) returns (out: Outcome)
    modifies sh
    ensures var r := CreateAllRun(sh.world, cfg, fs, old(sh.now));
      sh.trace == old(sh.trace) + r.events && sh.now == r.end && out == r.outcome
  {
    ghost var t0, tr0 := sh.now, sh.trace;
    CreateRegistry(sh);
    ghost var t1, tr1 := sh.now, sh.trace;
    CreateCluster(sh, cfg);
    ghost var t2, tr2 := sh.now, sh.trace;
    out := ApplyManifests(sh, cfg, fs);
    CreateAllSteps(sh.world, cfg, fs, t0, tr0, t1, tr1, t2, tr2, sh.now, sh.trace, out);
  }

  /** The three steps of `CreateAll` make up `CreateAllRun`. */
  lemma CreateAllSteps(w: World, cfg: Config, fs: ClusterFiles,
                       t0: int, tr0: seq<Event>, t1: int, tr1: seq<Event>,
                       t2: int, tr2: seq<Event>, t3: int, tr3: seq<Event>, out: Outcome)
    requires var reg := CreateRegistryRun(w, t0); tr1 == tr0 + reg.events && t1 == reg.end
    requires var cl := CreateClusterRun(w, cfg, t1); tr2 == tr1 + cl.events && t2 == cl.end
    requires var apply := ApplyManifestsRun(w, cfg, fs, t2);
      tr3 == tr2 + apply.events && t3 == apply.end && out == apply.outcome
    ensures var r := CreateAllRun(w, cfg, fs, t0);
      tr3 == tr0 + r.events && t3 == r.end && out == r.outcome
  {
    CreateRegistrySucceeds(w, t0);
    CreateClusterSucceeds(w, cfg, t1);
    ThreeStepTrace(CreateRegistryRun(w, t0), CreateClusterRun(w, cfg, t1),
                   ApplyManifestsRun(w, cfg, fs, t2), tr0, tr1, tr2, tr3);
  }

  /** The `delete_all` case of the dispatch. */
  method DeleteAll(sh: Shell)
    modifies sh
    ensures var r := DeleteAllRun(sh.world, old(sh.now));
      sh.trace == old(sh.trace) + r.events && sh.now == r.end && r.outcome == Ok
  {
    DeleteAllShape(sh.world, sh.now);
    DeleteAllClusters(sh);
    DeleteRegistry(sh);
  }

  /** The top-level `match _OPERATION`. */
  method Dispatch(sh: Shell, cfg: Config, fs: ClusterFiles) returns (out: Outcome)
    modifies sh
    ensures var r := OperationRun(sh.world, cfg, fs, old(sh.now));
      sh.trace == old(sh.trace) + r.events && sh.now == r.end && out == r.outcome
  {
    match cfg.operation
    case "apply_manifests" =>
      out := ApplyManifests(sh, cfg, fs);
    case "create_cluster" =>
      out := CreateAll(sh, cfg, fs);
    case "list_clusters" =>
      var _ := ListClusters(sh);
      out := Ok;
    case "delete_cluster" =>
      DeleteClusterSucceeds(sh.world, cfg, sh.now);
      DeleteCluster(sh, cfg);
      out := Ok;
    case "delete_all_clusters" =>
      DeleteAllClustersSucceeds(sh.world, sh.now);
      DeleteAllClusters(sh);
      out := Ok;
    case "create_registry" =>
      CreateRegistrySucceeds(sh.world, sh.now);
      CreateRegistry(sh);
      out := Ok;
    case "list_registries" =>
      var _ := ListRegistries(sh);
      out := Ok;
    case "delete_registry" =>
      DeleteRegistrySucceeds(sh.world, sh.now);
      DeleteRegistry(sh);
      out := Ok;
    case "delete_all" =>
      DeleteAll(sh);
      out := Ok;
    case _ =>
      out := Fatal(UnknownOperation(cfg.operation));
  }
}
