/** The k3d bookkeeping: which clusters and registries the repository manages, and
    the create / delete / list operations that those predicates guard. */
module Clusters {
  import opened Env

  /** The environment entry that marks a node of a cluster this repository created. */
  const ManagedEnv := "00RG_MANAGED=1"
  const RegistryName := "local-registry"
  const RegistryPort := 5555

  /** `any("00RG_MANAGED=1" in n["env"] for n in nodes)`. */
  predicate AnyNodeManaged(nodes: seq<Node>)
  {
    nodes != [] && (ManagedEnv in nodes[0].env || AnyNodeManaged(nodes[1..]))
  }

  predicate IsManaged(c: Cluster)
  {
    AnyNodeManaged(c.nodes)
  }

  /** The filter in `_get_clusters`: the managed clusters, in listing order. */
  function Managed(cs: seq<Cluster>): (r: seq<Cluster>)
    ensures |r| <= |cs|
    ensures forall c :: c in r <==> c in cs && IsManaged(c)
  {
    if cs == [] then []
    else (if IsManaged(cs[0]) then [cs[0]] else []) + Managed(cs[1..])
  }

  predicate AnyNamed(cs: seq<Cluster>, name: string)
  {
    cs != [] && (cs[0].name == name || AnyNamed(cs[1..], name))
  }

  /** `_cluster_exists` on a given listing. */
  predicate ClusterExists(cs: seq<Cluster>, name: string)
  {
    AnyNamed(Managed(cs), name)
  }

  /** `_registry_exists` on a given listing. */
  predicate RegistryExists(rs: seq<Registry>)
  {
    rs != [] && (rs[0].name == "k3d-" + RegistryName || RegistryExists(rs[1..]))
  }

  function Names(cs: seq<Cluster>): (r: seq<string>)
    ensures |r| == |cs|
    ensures forall i :: 0 <= i < |cs| ==> r[i] == cs[i].name
  {
    if cs == [] then [] else [cs[0].name] + Names(cs[1..])
  }

  // ----- The predicates, stated against their plain meaning -----

  lemma {:induction false} ManagedIff(c: Cluster)
    ensures IsManaged(c) <==> exists i :: 0 <= i < |c.nodes| && ManagedEnv in c.nodes[i].env
  {
    NodesManagedIff(c.nodes);
  }

  lemma {:induction false} NodesManagedIff(nodes: seq<Node>)
    ensures AnyNodeManaged(nodes) <==> exists i :: 0 <= i < |nodes| && ManagedEnv in nodes[i].env
  {
    if nodes != [] {
      NodesManagedIff(nodes[1..]);
      if AnyNodeManaged(nodes[1..]) {
        var i :| 0 <= i < |nodes[1..]| && ManagedEnv in nodes[1..][i].env;
        assert nodes[i + 1] == nodes[1..][i];
      }
      if exists i :: 0 <= i < |nodes| && ManagedEnv in nodes[i].env {
        var i :| 0 <= i < |nodes| && ManagedEnv in nodes[i].env;
        if i > 0 {
          assert nodes[1..][i - 1] == nodes[i];
        }
      }
    }
  }

  /** The filter keeps order and multiplicity: it distributes over concatenation, and
      on one cluster it keeps exactly the managed one. */
  lemma {:induction false} ManagedAppend(a: seq<Cluster>, b: seq<Cluster>)
    ensures Managed(a + b) == Managed(a) + Managed(b)
  {
    if a == [] {
      assert a + b == b;
    } else {
      assert (a + b)[0] == a[0] && (a + b)[1..] == a[1..] + b;
      ManagedAppend(a[1..], b);
    }
  }

  lemma ManagedSingle(c: Cluster)
    ensures Managed([c]) == if IsManaged(c) then [c] else []
  {
    assert [c][1..] == [];
  }

  lemma {:induction false} AnyNamedIff(cs: seq<Cluster>, name: string)
    ensures AnyNamed(cs, name) <==> exists c :: c in cs && c.name == name
  {
    if cs != [] {
      AnyNamedIff(cs[1..], name);
      assert cs == [cs[0]] + cs[1..];
    }
  }

  /** `_cluster_exists`: some managed cluster of the listing has the name. */
  lemma ClusterExistsIff(cs: seq<Cluster>, name: string)
    ensures ClusterExists(cs, name) <==> exists c :: c in cs && IsManaged(c) && c.name == name
  {
    AnyNamedIff(Managed(cs), name);
  }

  /** `_registry_exists`: some listed registry is called `k3d-local-registry`. */
  lemma {:induction false} RegistryExistsIff(rs: seq<Registry>)
    ensures RegistryExists(rs) <==> exists r :: r in rs && r.name == "k3d-local-registry"
  {
    if rs != [] {
      RegistryExistsIff(rs[1..]);
      assert rs == [rs[0]] + rs[1..];
    }
  }

  // ----- The operations, as runs -----

  /** `create_cluster`: list the clusters, then create one unless it exists. */
  function CreateClusterRun(w: World, cfg: Config, t: int): Run
  {
    var list := Issue(w, ClusterList, t);
    if ClusterExists(w.clusters(t), cfg.clusterName) then list
    else Then(list, Issue(w, ClusterCreate(cfg.k3dConfig), list.end))
  }

  /** `delete_cluster`: list the clusters, then delete the target if it exists. */
  function DeleteClusterRun(w: World, cfg: Config, t: int): Run
  {
    var list := Issue(w, ClusterList, t);
    if ClusterExists(w.clusters(t), cfg.clusterName) then
      Then(list, Issue(w, ClusterDelete(cfg.clusterName), list.end))
    else list
  }

  /** The loop of `delete_all_clusters` over the clusters still to delete. */
  function DeleteEachRun(w: World, cs: seq<Cluster>, t: int): Run
    decreases |cs|
  {
    if cs == [] then Run([], Ok, t)
    else
      var first := Issue(w, ClusterDelete(cs[0].name), t);
      Then(first, DeleteEachRun(w, cs[1..], first.end))
  }

  /** `delete_all_clusters`: list the clusters, then delete every managed one. */
  function DeleteAllClustersRun(w: World, t: int): Run
  {
    var list := Issue(w, ClusterList, t);
    Then(list, DeleteEachRun(w, Managed(w.clusters(t)), list.end))
  }

  /** `create_registry`: list the registries, then create ours unless it exists. */
  function CreateRegistryRun(w: World, t: int): Run
  {
    var list := Issue(w, RegistryList, t);
    if RegistryExists(w.registries(t)) then list
    else Then(list, Issue(w, RegistryCreate(RegistryName, RegistryPort), list.end))
  }

  /** `delete_registry`: list the registries, then delete ours if it exists. */
  function DeleteRegistryRun(w: World, t: int): Run
  {
    var list := Issue(w, RegistryList, t);
    if RegistryExists(w.registries(t)) then
      Then(list, Issue(w, RegistryDelete(RegistryName), list.end))
    else list
  }

  // ----- What the guards promise -----

  /** `create_cluster` issues `cluster create` exactly when no managed cluster with the
      target name is listed, and never fails. */
  lemma CreateClusterGuard(w: World, cfg: Config, t: int)
    ensures var r := CreateClusterRun(w, cfg, t);
      r.outcome == Ok &&
      r.events == [Event(ClusterList, t)] +
        (if exists c :: c in w.clusters(t) && IsManaged(c) && c.name == cfg.clusterName then []
         else [Event(ClusterCreate(cfg.k3dConfig), Next(w, ClusterList, t))])
  {
    ClusterExistsIff(w.clusters(t), cfg.clusterName);
  }

  /** `delete_cluster` issues `cluster delete <name>` exactly when a managed cluster of
      that name is listed. */
  lemma DeleteClusterGuard(w: World, cfg: Config, t: int)
    ensures var r := DeleteClusterRun(w, cfg, t);
      r.outcome == Ok &&
      r.events == [Event(ClusterList, t)] +
        (if exists c :: c in w.clusters(t) && IsManaged(c) && c.name == cfg.clusterName
         then [Event(ClusterDelete(cfg.clusterName), Next(w, ClusterList, t))]
         else [])
  {
    ClusterExistsIff(w.clusters(t), cfg.clusterName);
  }

  lemma {:induction false} DeleteEachShape(w: World, cs: seq<Cluster>, t: int)
    ensures var r := DeleteEachRun(w, cs, t);
      r.outcome == Ok && |r.events| == |cs| && r.end >= t &&
      forall i :: 0 <= i < |cs| ==> r.events[i].cmd == ClusterDelete(cs[i].name) && r.events[i].at >= t
  {
    if cs != [] {
      var first := Issue(w, ClusterDelete(cs[0].name), t);
      DeleteEachShape(w, cs[1..], first.end);
      var rest := DeleteEachRun(w, cs[1..], first.end);
      assert forall i :: 1 <= i < |cs| ==> cs[1..][i - 1] == cs[i];
    }
  }

  /** `delete_all_clusters` lists the clusters once and then deletes each managed one
      once, in listing order, and nothing else. */
  lemma DeleteAllInListOrder(w: World, t: int)
    ensures var ms := Managed(w.clusters(t)); var r := DeleteAllClustersRun(w, t);
      r.outcome == Ok && |r.events| == |ms| + 1 && r.events[0] == Event(ClusterList, t) &&
      forall i :: 0 <= i < |ms| ==> r.events[i + 1].cmd == ClusterDelete(ms[i].name)
  {
    var ms := Managed(w.clusters(t));
    DeleteEachShape(w, ms, Next(w, ClusterList, t));
  }

  /** `create_registry` issues `registry create local-registry --port 5555` exactly
      when no `k3d-local-registry` is listed. */
  lemma CreateRegistryGuard(w: World, t: int)
    ensures var r := CreateRegistryRun(w, t);
      r.outcome == Ok &&
      r.events == [Event(RegistryList, t)] +
        (if exists g :: g in w.registries(t) && g.name == "k3d-local-registry" then []
         else [Event(RegistryCreate("local-registry", 5555), Next(w, RegistryList, t))])
  {
    RegistryExistsIff(w.registries(t));
  }

  /** `delete_registry` issues `registry delete local-registry` exactly when
      `k3d-local-registry` is listed. */
  lemma DeleteRegistryGuard(w: World, t: int)
    ensures var r := DeleteRegistryRun(w, t);
      r.outcome == Ok &&
      r.events == [Event(RegistryList, t)] +
        (if exists g :: g in w.registries(t) && g.name == "k3d-local-registry"
         then [Event(RegistryDelete("local-registry"), Next(w, RegistryList, t))]
         else [])
  {
    RegistryExistsIff(w.registries(t));
  }

  /** The commands that go to `k3d`. */
  ghost predicate AllK3d(evs: seq<Event>)
  {
    forall i :: 0 <= i < |evs| ==> !IsKubectlCmd(evs[i].cmd)
  }

  lemma K3dAppend(a: seq<Event>, b: seq<Event>)
    requires AllK3d(a) && AllK3d(b)
    ensures AllK3d(a + b)
  {
    forall i | 0 <= i < |a + b| ensures !IsKubectlCmd((a + b)[i].cmd) {
      if i >= |a| {
        assert (a + b)[i] == b[i - |a|];
      }
    }
  }

  /** Each cluster and registry operation never fails and talks only to `k3d`. */
  lemma CreateClusterSucceeds(w: World, cfg: Config, t: int)
    ensures var r := CreateClusterRun(w, cfg, t); r.outcome == Ok && AllK3d(r.events)
  {
  }

  lemma DeleteClusterSucceeds(w: World, cfg: Config, t: int)
    ensures var r := DeleteClusterRun(w, cfg, t); r.outcome == Ok && AllK3d(r.events)
  {
  }

  lemma DeleteAllClustersSucceeds(w: World, t: int)
    ensures var r := DeleteAllClustersRun(w, t); r.outcome == Ok && AllK3d(r.events)
  {
    var r := DeleteAllClustersRun(w, t);
    DeleteAllInListOrder(w, t);
    forall i | 0 <= i < |r.events| ensures !IsKubectlCmd(r.events[i].cmd) {
      if i > 0 {
        var j := i - 1;
        assert r.events[j + 1].cmd == ClusterDelete(Managed(w.clusters(t))[j].name);
      }
    }
  }

  lemma CreateRegistrySucceeds(w: World, t: int)
    ensures var r := CreateRegistryRun(w, t); r.outcome == Ok && AllK3d(r.events)
  {
  }

  lemma DeleteRegistrySucceeds(w: World, t: int)
    ensures var r := DeleteRegistryRun(w, t); r.outcome == Ok && AllK3d(r.events)
  {
  }

  // ----- The operations against a shell -----

  /** `_get_clusters`. */
  method GetClusters(sh: Shell) returns (ms: seq<Cluster>)
    modifies sh
    ensures sh.trace == old(sh.trace) + [Event(ClusterList, old(sh.now))]
    ensures sh.now == Next(sh.world, ClusterList, old(sh.now))
    ensures ms == Managed(sh.world.clusters(old(sh.now)))
  {
    var cs := sh.ClusterListing();
    ms := Managed(cs);
  }

  /** `_cluster_exists`. */
  method ClusterExistsNow(sh: Shell, cfg: Config) returns (b: bool)
    modifies sh
    ensures sh.trace == old(sh.trace) + [Event(ClusterList, old(sh.now))]
    ensures sh.now == Next(sh.world, ClusterList, old(sh.now))
    ensures b == ClusterExists(sh.world.clusters(old(sh.now)), cfg.clusterName)
  {
    var ms := GetClusters(sh);
    b := AnyNamed(ms, cfg.clusterName);
  }

  /** `_registry_exists`. */
  method RegistryExistsNow(sh: Shell) returns (b: bool)
    modifies sh
    ensures sh.trace == old(sh.trace) + [Event(RegistryList, old(sh.now))]
    ensures sh.now == Next(sh.world, RegistryList, old(sh.now))
    ensures b == RegistryExists(sh.world.registries(old(sh.now)))
  {
    var rs := sh.RegistryListing();
    b := RegistryExists(rs);
  }

  method CreateCluster(sh: Shell, cfg: Config)
    modifies sh
    ensures var r := CreateClusterRun(sh.world, cfg, old(sh.now));
      sh.trace == old(sh.trace) + r.events && sh.now == r.end
  {
    var exists_ := ClusterExistsNow(sh, cfg);
    if !exists_ {
      var _ := sh.Exec(ClusterCreate(cfg.k3dConfig));
    }
  }

  /** `list_clusters`: the names it prints, one per managed cluster. */
  method ListClusters(sh: Shell) returns (names: seq<string>)
    modifies sh
    ensures sh.trace == old(sh.trace) + [Event(ClusterList, old(sh.now))]
    ensures sh.now == Next(sh.world, ClusterList, old(sh.now))
    ensures names == Names(Managed(sh.world.clusters(old(sh.now))))
  {
    var ms := GetClusters(sh);
    names := Names(ms);
  }

  method DeleteCluster(sh: Shell, cfg: Config)
    modifies sh
    ensures var r := DeleteClusterRun(sh.world, cfg, old(sh.now));
      sh.trace == old(sh.trace) + r.events && sh.now == r.end
  {
    var exists_ := ClusterExistsNow(sh, cfg);
    if exists_ {
      var _ := sh.Exec(ClusterDelete(cfg.clusterName));
    }
  }

  /** The loop of `delete_all_clusters`: `_delete_cluster_no_check` on each cluster. */
  method DeleteEach(sh: Shell, cs: seq<Cluster>)
    modifies sh
    ensures var r := DeleteEachRun(sh.world, cs, old(sh.now));
      sh.trace == old(sh.trace) + r.events && sh.now == r.end
  {
    ghost var all := DeleteEachRun(sh.world, cs, sh.now);
    var i := 0;
    assert cs[i..] == cs;
    while i < |cs|
      invariant 0 <= i <= |cs|
      invariant var rest := DeleteEachRun(sh.world, cs[i..], sh.now);
        old(sh.trace) + all.events == sh.trace + rest.events && all.outcome == rest.outcome && all.end == rest.end
    {
      ghost var t, before := sh.now, sh.trace;
      var _ := sh.Exec(ClusterDelete(cs[i].name));
      assert cs[i..][0] == cs[i] && cs[i..][1..] == cs[i + 1..];
      ghost var first := Issue(sh.world, ClusterDelete(cs[i].name), t);
      ThenStep(first, DeleteEachRun(sh.world, cs[i + 1..], first.end),
               DeleteEachRun(sh.world, cs[i..], t), old(sh.trace), all, before, sh.trace);
      i := i + 1;
    }
    assert cs[i..] == [];
  }

  method DeleteAllClusters(sh: Shell)
    modifies sh
    ensures var r := DeleteAllClustersRun(sh.world, old(sh.now));
      sh.trace == old(sh.trace) + r.events && sh.now == r.end
  {
    var ms := GetClusters(sh);
    DeleteEach(sh, ms);
  }

  method CreateRegistry(sh: Shell)
    modifies sh
    ensures var r := CreateRegistryRun(sh.world, old(sh.now));
      sh.trace == old(sh.trace) + r.events && sh.now == r.end
  {
    var exists_ := RegistryExistsNow(sh);
    if !exists_ {
      var _ := sh.Exec(RegistryCreate(RegistryName, RegistryPort));
    }
  }

  /** `list_registries`: the name it prints, if our registry is listed. */
  method ListRegistries(sh: Shell) returns (names: seq<string>)
    modifies sh
    ensures sh.trace == old(sh.trace) + [Event(RegistryList, old(sh.now))]
    ensures sh.now == Next(sh.world, RegistryList, old(sh.now))
    ensures names == if RegistryExists(sh.world.registries(old(sh.now))) then [RegistryName] else []
  {
    var exists_ := RegistryExistsNow(sh);
    names := if exists_ then [RegistryName] else [];
  }

  method DeleteRegistry(sh: Shell)
    modifies sh
    ensures var r := DeleteRegistryRun(sh.world, old(sh.now));
      sh.trace == old(sh.trace) + r.events && sh.now == r.end
  {
    var exists_ := RegistryExistsNow(sh);
    if exists_ {
      var _ := sh.Exec(RegistryDelete(RegistryName));
    }
  }
}
