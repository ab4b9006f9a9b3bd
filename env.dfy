/** The world the wrapper talks to: the `k3d` and `kubectl` commands it issues, the
    answers those commands give, and an abstract clock. A `Shell` is the wrapper's
    handle on that world: every command it runs is appended, with the clock reading
    at which it was issued, to a trace. */
module Env {
  import opened Values

  /** The external commands the wrapper issues (the binaries' paths are left out). */
  datatype Cmd =
    | ClusterList                               // k3d cluster list -o=json
    | ClusterCreate(config: string)             // k3d cluster create --config <config>
    | ClusterDelete(name: string)               // k3d cluster delete <name>
    | RegistryList                              // k3d registry list -o=json
    | RegistryCreate(name: string, port: int)   // k3d registry create <name> --port <port>
    | RegistryDelete(name: string)              // k3d registry delete <name>
    | GetCrd(crd: string)                       // kubectl get crd <crd>
    | WaitEstablished(crd: string, timeout: int)
                                                // kubectl wait --for=condition=established --timeout=<timeout>s crd <crd>
    | ApplyK(dir: string)                       // kubectl apply -k <dir>

  /** The commands a wave hook issues. */
  predicate IsHookCmd(c: Cmd)
  {
    c.GetCrd? || c.WaitEstablished?
  }

  /** The commands that go to `kubectl` rather than to `k3d`. */
  predicate IsKubectlCmd(c: Cmd)
  {
    c.GetCrd? || c.WaitEstablished? || c.ApplyK?
  }

  /** A command together with the clock reading at which it was issued. */
  datatype Event = Event(cmd: Cmd, at: int)

  /** The parts of `k3d ... list -o=json` output the wrapper reads. */
  datatype Node = Node(env: seq<string>)
  datatype Cluster = Cluster(name: string, nodes: seq<Node>)
  datatype Registry = Registry(name: string)

  /** How the outside world answers. A command issued at clock reading `t` exits with
      `exitCode(c, t)` and returns after `1 + duration(c, t)` ticks, so every command
      moves the clock forward. Since no two commands are issued at the same reading,
      these functions can describe any sequence of answers. */
  datatype World = World(
    exitCode: (Cmd, int) -> int,
    duration: (Cmd, int) -> nat,
    clusters: int -> seq<Cluster>,
    registries: int -> seq<Registry>)

  /** The clock reading once command `c`, issued at `t`, has returned. */
  function Next(w: World, c: Cmd, t: int): (u: int)
    ensures u > t
  {
    t + 1 + w.duration(c, t)
  }

  /** Settings the wrapper reads from its environment variables. */
  datatype Config = Config(clusterName: string, k3dConfig: string, operation: string)

  /** Why the process stops with a non-zero exit status. */
  datatype Failure =
    | CrdWaitError(crd: string)                     // "Error waiting for CRD <crd>"
    | CrdTimeout(crd: string)                       // "Timed out waiting for CRD <crd>"
    | UnrecognizedHook(hookType: string, hook: Value)
                                                    // "Unrecognized <type> wave hook: <hook>"
    | UnknownOperation(operation: string)           // "Unknown operation: <operation>"
    | Uncaught(error: PyError)                      // an exception nothing catches

  datatype Outcome = Ok | Fatal(failure: Failure)

  /** What one part of the wrapper does from a given clock reading on: the commands
      it issues, how it ends, and the clock reading when it is done. */
  datatype Run = Run(events: seq<Event>, outcome: Outcome, end: int)

  /** Issue one command whose exit status is ignored. */
  function Issue(w: World, c: Cmd, t: int): Run
  {
    Run([Event(c, t)], Ok, Next(w, c, t))
  }

  /** `a` followed by `b`, unless `a` ended the process; `b` must start at `a.end`. */
  function Then(a: Run, b: Run): Run
  {
    if a.outcome.Fatal? then a else Run(a.events + b.events, b.outcome, b.end)
  }

  lemma ThenAfterOk(a: Run, b: Run)
    requires a.outcome == Ok
    ensures Then(a, b) == Run(a.events + b.events, b.outcome, b.end)
  {
  }

  /** The trace bookkeeping of one turn of a loop whose remaining work is
      `Then(first, rest)`: once `first` is done, either the whole run is over or
      `rest` is what remains. */
  lemma ThenStep(first: Run, rest: Run, cur: Run,
                 start: seq<Event>, whole: Run, before: seq<Event>, after: seq<Event>)
    requires cur == Then(first, rest)
    requires start + whole.events == before + cur.events
    requires whole.outcome == cur.outcome && whole.end == cur.end
    requires after == before + first.events
    ensures first.outcome.Fatal? ==>
      start + whole.events == after && whole.outcome == first.outcome && whole.end == first.end
    ensures first.outcome.Ok? ==>
      start + whole.events == after + rest.events &&
      whole.outcome == rest.outcome && whole.end == rest.end
  {
    if first.outcome.Ok? {
      assert before + (first.events + rest.events) == after + rest.events;
    }
  }

  /** Three runs in a row, the first two successful, leave the trace of `Then`. */
  lemma ThreeStepTrace(a: Run, b: Run, c: Run,
                       tr0: seq<Event>, tr1: seq<Event>, tr2: seq<Event>, tr3: seq<Event>)
    requires a.outcome == Ok && b.outcome == Ok
    requires tr1 == tr0 + a.events && tr2 == tr1 + b.events && tr3 == tr2 + c.events
    ensures var r := Then(a, Then(b, c));
      tr3 == tr0 + r.events && r.outcome == c.outcome && r.end == c.end
  {
    assert tr0 + (a.events + (b.events + c.events)) == tr0 + a.events + b.events + c.events;
  }

  /** The dirs of the `apply -k` commands among `evs`, in order. */
  function AppliedDirs(evs: seq<Event>): seq<string>
  {
    if evs == [] then []
    else (if evs[0].cmd.ApplyK? then [evs[0].cmd.dir] else []) + AppliedDirs(evs[1..])
  }

  lemma {:induction false} AppliedDirsAppend(a: seq<Event>, b: seq<Event>)
    ensures AppliedDirs(a + b) == AppliedDirs(a) + AppliedDirs(b)
  {
    if a == [] {
      assert a + b == b;
    } else {
      assert (a + b)[0] == a[0] && (a + b)[1..] == a[1..] + b;
      AppliedDirsAppend(a[1..], b);
    }
  }

  lemma {:induction false} AppliedDirsNone(evs: seq<Event>)
    requires forall i :: 0 <= i < |evs| ==> !evs[i].cmd.ApplyK?
    ensures AppliedDirs(evs) == []
  {
    if evs != [] {
      AppliedDirsNone(evs[1..]);
    }
  }

  /** The wrapper's handle on the outside world. */
  class Shell {
    const world: World
    var now: int
    var trace: seq<Event>

    constructor (world: World, start: int)
      ensures this.world == world && now == start && trace == []
    {
      this.world := world;
      now := start;
      trace := [];
    }

    /** `time.time()`. */
    method Clock() returns (t: int)
      ensures t == now
    {
      t := now;
    }

    /** `subprocess.run(c).returncode`. */
    method Exec(c: Cmd) returns (code: int)
      modifies this
      ensures trace == old(trace) + [Event(c, old(now))]
      ensures now == Next(world, c, old(now))
      ensures code == world.exitCode(c, old(now))
    {
      code := world.exitCode(c, now);
      trace := trace + [Event(c, now)];
      now := Next(world, c, now);
    }

    /** `json.loads` of the output of `k3d cluster list -o=json`. */
    method ClusterListing() returns (cs: seq<Cluster>)
      modifies this
      ensures trace == old(trace) + [Event(ClusterList, old(now))]
      ensures now == Next(world, ClusterList, old(now))
      ensures cs == world.clusters(old(now))
    {
      cs := world.clusters(now);
      var _ := Exec(ClusterList);
    }

    /** `json.loads` of the output of `k3d registry list -o=json`. */
    method RegistryListing() returns (rs: seq<Registry>)
      modifies this
      ensures trace == old(trace) + [Event(RegistryList, old(now))]
      ensures now == Next(world, RegistryList, old(now))
      ensures rs == world.registries(old(now))
    {
      rs := world.registries(now);
      var _ := Exec(RegistryList);
    }
  }
}
