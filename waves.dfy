/** The manifest wave orchestrator: `apply_manifests` chooses between applying the
    cluster directory once and applying its `wave*` directories in sorted order; each
    wave runs its `preApply` hooks, `kubectl apply -k`, then its `postApply` hooks; the
    only hook, `waitForCRD`, polls `kubectl get crd` against a deadline. */
module Waves {
  import opened Values
  import opened Order
  import opened Env

  /** `_CRD_WAIT_TIME_SECS`, in clock ticks. */
  const CrdWaitSecs := 180
  const PreApply := "preApply"
  const PostApply := "postApply"

  /** What the wrapper reads from the cluster's manifest directory: whether it holds a
      `kustomization.yaml`, the names of its entries (in whatever order the file
      system lists them), and, for each wave directory path whose `wave.yaml` exists,
      what `yaml.safe_load` makes of it: the parsed document, or the error it raises. */
  datatype ClusterFiles = ClusterFiles(
    hasKustomization: bool,
    listing: seq<string>,
    waveYaml: map<string, Result<Value>>)

  function ClusterDir(cfg: Config): string
  {
    "config/clusters/" + cfg.clusterName
  }

  /** What matches the glob pattern `wave*`. */
  predicate IsWaveName(n: string)
  {
    |n| >= 4 && n[..4] == "wave"
  }

  /** The `wave*` entries of a listing, each as often as the listing holds it. */
  function WaveNames(listing: seq<string>): (r: seq<string>)
    ensures forall n :: n in r <==> n in listing && IsWaveName(n)
    ensures forall n :: multiset(r)[n] == if IsWaveName(n) then multiset(listing)[n] else 0
  {
    if listing == [] then []
    else
      assert listing == [listing[0]] + listing[1..];
      (if IsWaveName(listing[0]) then [listing[0]] else []) + WaveNames(listing[1..])
  }

  lemma {:induction false} NoWaveNames(listing: seq<string>)
    requires forall n :: n in listing ==> !IsWaveName(n)
    ensures WaveNames(listing) == []
  {
    if listing != [] {
      assert listing[0] in listing;
      NoWaveNames(listing[1..]);
    }
  }

  /** `sorted(glob.glob("<dir>/wave*"))`. */
  function WaveDirs(dir: string, listing: seq<string>): seq<string>
  {
    Sort(Prefixed(dir + "/", WaveNames(listing)))
  }

  // ----- How one hook ends -----

  /** How the body of `for hook in hooks` ends: by falling through to the next hook,
      by returning from `_run_wave_hooks`, or by ending the process. */
  datatype Control = Continue | Return | Exit(failure: Failure)

  datatype Step = Step(events: seq<Event>, control: Control, end: int)

  /** The polling loop of `waitForCRD` from clock reading `t` on: while the clock is
      before the deadline, ask `kubectl get crd`; once that succeeds, wait for the
      Established condition with what is left of the budget. */
  function Poll(w: World, crd: string, deadline: int, t: int): Step
    decreases deadline - t
  {
    if deadline <= t then Step([], Exit(CrdTimeout(crd)), t)
    else
      var get := GetCrd(crd);
      var t1 := Next(w, get, t);
      if w.exitCode(get, t) == 0 then
        var wait := WaitEstablished(crd, deadline - t1);
        Step([Event(get, t), Event(wait, t1)],
             if w.exitCode(wait, t1) != 0 then Exit(CrdWaitError(crd)) else Return,
             Next(w, wait, t1))
      else
        var rest := Poll(w, crd, deadline, t1);
        Step([Event(get, t)] + rest.events, rest.control, rest.end)
  }

  /** The body of `for hook in hooks` on one hook, started at `t`. */
  function HookStep(w: World, hookType: string, hook: Value, t: int): Step
  {
    match Get(hook, "waitForCRD")
    case Raised(e) => Step([], Exit(Uncaught(e)), t)
    case Got(spec) =>
      if !Truthy(spec) then Step([], Exit(UnrecognizedHook(hookType, hook)), t)
      else
        match Subscript(spec, "name")
        case Raised(e) => Step([], Exit(Uncaught(e)), t)
        case Got(name) =>
          if name.VStr? then Poll(w, name.s, t + CrdWaitSecs, t)
          else Step([], Exit(Uncaught(TypeError)), t)
  }

  /** `for hook in hooks` over the hooks still to run. */
  function HookLoop(w: World, hookType: string, hooks: seq<Value>, t: int): Run
    decreases |hooks|
  {
    if hooks == [] then Run([], Ok, t)
    else
      var s := HookStep(w, hookType, hooks[0], t);
      match s.control
      case Continue =>
        var rest := HookLoop(w, hookType, hooks[1..], s.end);
        Run(s.events + rest.events, rest.outcome, rest.end)
      case Return => Run(s.events, Ok, s.end)
      case Exit(f) => Run(s.events, Fatal(f), s.end)
  }

  /** `wave_info["spec"]["hooks"][hook_type]`. */
  function HooksOf(info: Value, hookType: string): Result<Value>
  {
    match Subscript(info, "spec")
    case Raised(e) => Raised(e)
    case Got(spec) =>
      match Subscript(spec, "hooks")
      case Raised(e) => Raised(e)
      case Got(hooks) => Subscript(hooks, hookType)
  }

  /** The hooks `for hook in hooks` visits. Iterating a mapping or a string yields
      strings, which have no `get`, so a non-empty one raises AttributeError at the
      first hook; None, booleans and numbers are not iterable. */
  function Entries(hooks: Value): Result<seq<Value>>
  {
    match hooks
    case VList(items) => Got(items)
    case VMap(fields) => if fields == map[] then Got([]) else Raised(AttributeError)
    case VStr(s) => if s == [] then Got([]) else Raised(AttributeError)
    case _ => Raised(TypeError)
  }

  /** `_run_wave_hooks(wave_info, hook_type)`, started at `t`. */
  function HooksRun(w: World, info: Value, hookType: string, t: int): Run
  {
    match HooksOf(info, hookType)
    case Raised(e) => if e == KeyError then Run([], Ok, t) else Run([], Fatal(Uncaught(e)), t)
    case Got(hooks) =>
      match Entries(hooks)
      case Raised(e) => Run([], Fatal(Uncaught(e)), t)
      case Got(hs) => HookLoop(w, hookType, hs, t)
  }

  /** `_apply_wave(dir)`, started at `t`. Without a `wave.yaml` the name `wave_info`
      is never bound and the hook run raises UnboundLocalError; a `wave.yaml` that
      does not parse raises from `yaml.safe_load`. */
  function WaveRun(w: World, fs: ClusterFiles, dir: string, t: int): Run
  {
    if dir !in fs.waveYaml then Run([], Fatal(Uncaught(UnboundLocalError)), t)
    else
      match fs.waveYaml[dir]
      case Raised(e) => Run([], Fatal(Uncaught(e)), t)
      case Got(info) =>
        var pre := HooksRun(w, info, PreApply, t);
        var apply := Issue(w, ApplyK(dir), pre.end);
        Then(pre, Then(apply, HooksRun(w, info, PostApply, apply.end)))
  }

  /** `for wave_dir in ...: _apply_wave(wave_dir)` over the waves still to apply. */
  function WavesRun(w: World, fs: ClusterFiles, dirs: seq<string>, t: int): Run
    decreases |dirs|
  {
    if dirs == [] then Run([], Ok, t)
    else
      var first := WaveRun(w, fs, dirs[0], t);
      Then(first, WavesRun(w, fs, dirs[1..], first.end))
  }

  /** `apply_manifests()`, started at `t`. */
  function ApplyManifestsRun(w: World, cfg: Config, fs: ClusterFiles, t: int): Run
  {
    var dir := ClusterDir(cfg);
    if fs.hasKustomization then Issue(w, ApplyK(dir), t)
    else WavesRun(w, fs, WaveDirs(dir, fs.listing), t)
  }

  // ----- The CRD wait -----

  /** Every `get crd` is issued before the deadline and no earlier than the start,
      and only the last command can be the established-wait; a timeout comes only
      after every poll failed. */
  lemma {:induction false} PollShape(w: World, crd: string, deadline: int, t: int)
    ensures var s := Poll(w, crd, deadline, t);
      s.end >= t && s.control != Continue &&
      (forall i :: 0 <= i < |s.events| ==>
        IsHookCmd(s.events[i].cmd) && t <= s.events[i].at < s.end) &&
      (forall i :: 0 <= i < |s.events| - 1 ==>
        s.events[i].cmd == GetCrd(crd) && s.events[i].at < deadline) &&
      (forall i :: 0 <= i < |s.events| && s.events[i].cmd == GetCrd(crd) ==>
        s.events[i].at < deadline) &&
      (s.control == Exit(CrdTimeout(crd)) ==>
        forall i :: 0 <= i < |s.events| ==>
          s.events[i].cmd == GetCrd(crd) && w.exitCode(GetCrd(crd), s.events[i].at) != 0) &&
      (s.control == Exit(CrdTimeout(crd)) <==> deadline <= s.end && (s.events == [] || s.events[|s.events| - 1].cmd == GetCrd(crd)))
    decreases deadline - t
  {
    if deadline > t {
      var t1 := Next(w, GetCrd(crd), t);
      if w.exitCode(GetCrd(crd), t) != 0 {
        PollShape(w, crd, deadline, t1);
        var rest := Poll(w, crd, deadline, t1);
        var s := Poll(w, crd, deadline, t);
        assert s.events == [Event(GetCrd(crd), t)] + rest.events;
        assert forall i :: 1 <= i < |s.events| ==> s.events[i] == rest.events[i - 1];
      }
    }
  }

  /** A CRD that never appears ends the process with "Timed out": the run polled only
      `get crd`, every poll before the deadline, and the clock reached the deadline. */
  lemma {:induction false} PollTimesOut(w: World, crd: string, deadline: int, t: int)
    requires forall u :: w.exitCode(GetCrd(crd), u) != 0
    ensures var s := Poll(w, crd, deadline, t);
      s.control == Exit(CrdTimeout(crd)) && deadline <= s.end &&
      forall i :: 0 <= i < |s.events| ==>
        s.events[i].cmd == GetCrd(crd) && t <= s.events[i].at < deadline
    decreases deadline - t
  {
    if deadline > t {
      var t1 := Next(w, GetCrd(crd), t);
      PollTimesOut(w, crd, deadline, t1);
      var rest := Poll(w, crd, deadline, t1);
      var s := Poll(w, crd, deadline, t);
      assert forall i :: 1 <= i < |s.events| ==> s.events[i] == rest.events[i - 1];
    }
  }

  /** Once `get crd` succeeds, exactly one established-wait follows, as the last
      command, with the budget left at that moment; the wait's exit status decides
      between returning and "Error waiting for CRD". */
  lemma {:induction false} PollWaitsOnce(w: World, crd: string, deadline: int, t: int)
    ensures var s := Poll(w, crd, deadline, t);
      s.control != Exit(CrdTimeout(crd)) ==>
        var n := |s.events|;
        n >= 2 && s.events[n - 2].cmd == GetCrd(crd) &&
        w.exitCode(GetCrd(crd), s.events[n - 2].at) == 0 &&
        (forall i :: 0 <= i < n - 2 ==> w.exitCode(GetCrd(crd), s.events[i].at) != 0) &&
        s.events[n - 1].cmd == WaitEstablished(crd, deadline - s.events[n - 1].at) &&
        t < s.events[n - 1].at &&
        (s.control == Return <==> w.exitCode(s.events[n - 1].cmd, s.events[n - 1].at) == 0) &&
        (s.control != Return ==> s.control == Exit(CrdWaitError(crd)))
    decreases deadline - t
  {
    if deadline > t {
      var t1 := Next(w, GetCrd(crd), t);
      if w.exitCode(GetCrd(crd), t) != 0 {
        PollWaitsOnce(w, crd, deadline, t1);
        var rest := Poll(w, crd, deadline, t1);
        var s := Poll(w, crd, deadline, t);
        assert forall i :: 1 <= i < |s.events| ==> s.events[i] == rest.events[i - 1];
      }
    }
  }

  /** A `waitForCRD` hook started at `t` gives the established-wait a budget of less
      than the full 180 ticks. */
  lemma WaitForCrdBudget(w: World, crd: string, t: int)
    ensures var s := Poll(w, crd, t + CrdWaitSecs, t);
      forall i :: 0 <= i < |s.events| && s.events[i].cmd.WaitEstablished? ==>
        s.events[i].cmd.timeout < CrdWaitSecs
  {
    var s := Poll(w, crd, t + CrdWaitSecs, t);
    PollShape(w, crd, t + CrdWaitSecs, t);
    PollWaitsOnce(w, crd, t + CrdWaitSecs, t);
  }

  // ----- The hook run -----

  /** No hook falls through to the next one: `waitForCRD` returns or exits, anything
      else exits. */
  lemma HookNeverContinues(w: World, hookType: string, hook: Value, t: int)
    ensures HookStep(w, hookType, hook, t).control != Continue
  {
    match Get(hook, "waitForCRD")
    case Raised(e) =>
    case Got(spec) =>
      if Truthy(spec) {
        match Subscript(spec, "name")
        case Raised(e) =>
        case Got(name) =>
          if name.VStr? {
            PollShape(w, name.s, t + CrdWaitSecs, t);
          }
      }
  }

  /** Only the first hook of a list ever runs: a successful `waitForCRD` returns from
      the whole hook run, and every other way through a hook ends the process. */
  lemma OnlyFirstHookRuns(w: World, hookType: string, hooks: seq<Value>, t: int)
    requires hooks != []
    ensures HookLoop(w, hookType, hooks, t) == HookLoop(w, hookType, hooks[..1], t)
  {
    HookNeverContinues(w, hookType, hooks[0], t);
    assert hooks[..1][0] == hooks[0];
  }

  /** A hook without a truthy `waitForCRD` entry ends the process as "Unrecognized"
      before any command, whatever hooks follow it. */
  lemma UnrecognizedHookExits(w: World, hookType: string, hooks: seq<Value>, t: int)
    requires hooks != [] && hooks[0].VMap?
    requires "waitForCRD" !in hooks[0].fields || !Truthy(hooks[0].fields["waitForCRD"])
    ensures HookLoop(w, hookType, hooks, t) == Run([], Fatal(UnrecognizedHook(hookType, hooks[0])), t)
  {
  }

  /** A document without `spec`, `spec.hooks` or `spec.hooks.<hook_type>` makes the
      hook run a no-op. */
  lemma MissingHooksAreNoOp(w: World, info: Value, hookType: string, t: int)
    requires info.VMap?
    requires || "spec" !in info.fields
             || (info.fields["spec"].VMap? && "hooks" !in info.fields["spec"].fields)
             || (info.fields["spec"].VMap? && info.fields["spec"].fields["hooks"].VMap? &&
                 hookType !in info.fields["spec"].fields["hooks"].fields)
    ensures HooksRun(w, info, hookType, t) == Run([], Ok, t)
  {
  }

  /** A hook run issues only `get crd` and established-wait commands, at or after its
      start, and never moves the clock back. */
  lemma HooksIssueOnlyHookCommands(w: World, info: Value, hookType: string, t: int)
    ensures var r := HooksRun(w, info, hookType, t);
      r.end >= t &&
      forall i :: 0 <= i < |r.events| ==> IsHookCmd(r.events[i].cmd) && t <= r.events[i].at
  {
    match HooksOf(info, hookType)
    case Raised(e) =>
    case Got(hooks) =>
      match Entries(hooks)
      case Raised(e) =>
      case Got(hs) =>
        if hs != [] {
          var hook := hs[0];
          HookNeverContinues(w, hookType, hook, t);
          match Get(hook, "waitForCRD")
          case Raised(e) =>
          case Got(spec) =>
            if Truthy(spec) {
              match Subscript(spec, "name")
              case Raised(e) =>
              case Got(name) =>
                if name.VStr? {
                  PollShape(w, name.s, t + CrdWaitSecs, t);
                }
            }
        }
  }

  // ----- Waves -----

  /** Within a wave, every `preApply` command comes before the wave's one
      `apply -k`, which comes before every `postApply` command; when a `preApply`
      hook fails, nothing is applied. */
  lemma WaveOrder(w: World, fs: ClusterFiles, dir: string, t: int)
    requires dir in fs.waveYaml && fs.waveYaml[dir].Got?
    ensures var info := fs.waveYaml[dir].value;
      var pre := HooksRun(w, info, PreApply, t);
      var r := WaveRun(w, fs, dir, t);
      r.end >= t &&
      (pre.outcome.Fatal? ==> r == pre && AppliedDirs(r.events) == []) &&
      (pre.outcome.Ok? ==>
        var k := |pre.events|;
        r.events == pre.events + [Event(ApplyK(dir), pre.end)] +
          HooksRun(w, info, PostApply, Next(w, ApplyK(dir), pre.end)).events &&
        k < |r.events| && r.events[..k] == pre.events &&
        r.events[k] == Event(ApplyK(dir), pre.end) &&
        AppliedDirs(r.events) == [dir] &&
        r.outcome == HooksRun(w, info, PostApply, Next(w, ApplyK(dir), pre.end)).outcome &&
        forall i :: 0 <= i < |r.events| && i != k ==> IsHookCmd(r.events[i].cmd))
  {
    var info := fs.waveYaml[dir].value;
    var pre := HooksRun(w, info, PreApply, t);
    HooksIssueOnlyHookCommands(w, info, PreApply, t);
    AppliedDirsNone(pre.events);
    if pre.outcome.Ok? {
      var t1 := Next(w, ApplyK(dir), pre.end);
      var post := HooksRun(w, info, PostApply, t1);
      HooksIssueOnlyHookCommands(w, info, PostApply, t1);
      AppliedDirsNone(post.events);
      var r := WaveRun(w, fs, dir, t);
      assert r.events == pre.events + [Event(ApplyK(dir), pre.end)] + post.events;
      AppliedDirsAppend(pre.events + [Event(ApplyK(dir), pre.end)], post.events);
      AppliedDirsAppend(pre.events, [Event(ApplyK(dir), pre.end)]);
      assert AppliedDirs([Event(ApplyK(dir), pre.end)]) == [dir];
    }
  }

  /** A wave directory without a `wave.yaml`, or with one `yaml.safe_load` rejects,
      ends the process before any command is issued. */
  lemma WaveWithoutDocumentFails(w: World, fs: ClusterFiles, dir: string, t: int)
    requires dir !in fs.waveYaml || fs.waveYaml[dir].Raised?
    ensures var r := WaveRun(w, fs, dir, t);
      r.events == [] && r.end == t &&
      r.outcome == Fatal(Uncaught(if dir in fs.waveYaml then fs.waveYaml[dir].error else UnboundLocalError))
  {
  }

  /** A wave never applies any directory but its own, whatever its hooks do. */
  lemma WaveAppliesOnlyItself(w: World, fs: ClusterFiles, dir: string, t: int)
    ensures var r := WaveRun(w, fs, dir, t);
      r.end >= t && AppliedDirs(r.events) <= [dir] &&
      (r.outcome.Ok? ==> AppliedDirs(r.events) == [dir])
  {
    if dir in fs.waveYaml && fs.waveYaml[dir].Got? {
      WaveOrder(w, fs, dir, t);
    }
  }

  /** The waves are applied in the given order: the applied directories form a prefix
      of `dirs`, all of it when the run succeeds. */
  lemma {:induction false} WavesApplyInOrder(w: World, fs: ClusterFiles, dirs: seq<string>, t: int)
    ensures var r := WavesRun(w, fs, dirs, t);
      AppliedDirs(r.events) <= dirs && (r.outcome.Ok? ==> AppliedDirs(r.events) == dirs)
    decreases |dirs|
  {
    if dirs != [] {
      var first := WaveRun(w, fs, dirs[0], t);
      WaveAppliesOnlyItself(w, fs, dirs[0], t);
      var rest := WavesRun(w, fs, dirs[1..], first.end);
      WavesApplyInOrder(w, fs, dirs[1..], first.end);
      AppliedThen(first, rest, dirs[0], dirs[1..]);
      assert dirs == [dirs[0]] + dirs[1..];
    }
  }

  lemma AppliedThen(first: Run, rest: Run, d: string, ds: seq<string>)
    requires AppliedDirs(first.events) <= [d] && (first.outcome.Ok? ==> AppliedDirs(first.events) == [d])
    requires AppliedDirs(rest.events) <= ds && (rest.outcome.Ok? ==> AppliedDirs(rest.events) == ds)
    ensures var r := Then(first, rest);
      AppliedDirs(r.events) <= [d] + ds && (r.outcome.Ok? ==> AppliedDirs(r.events) == [d] + ds)
  {
    if first.outcome.Ok? {
      AppliedDirsAppend(first.events, rest.events);
    }
  }

  /** A fatal outcome stops the waves: there is a wave k such that the first k - 1
      waves succeed, wave k fails, and the run over all waves is exactly the run over
      the first k, so no command of a later wave is issued. */
  lemma {:induction false} FatalWaveIsLast(w: World, fs: ClusterFiles, dirs: seq<string>, t: int)
    requires WavesRun(w, fs, dirs, t).outcome.Fatal?
    ensures exists k :: (1 <= k <= |dirs| &&
      WavesRun(w, fs, dirs[..k - 1], t).outcome.Ok? &&
      WavesRun(w, fs, dirs[..k], t) == WavesRun(w, fs, dirs, t))
    decreases |dirs|
  {
    var first := WaveRun(w, fs, dirs[0], t);
    assert dirs[..1][1..] == [] && dirs[..0] == [];
    if first.outcome.Fatal? {
      assert WavesRun(w, fs, dirs[..1], t) == first;
    } else {
      var rest := dirs[1..];
      FatalWaveIsLast(w, fs, rest, first.end);
      var k :| 1 <= k <= |rest| &&
        WavesRun(w, fs, rest[..k - 1], first.end).outcome.Ok? &&
        WavesRun(w, fs, rest[..k], first.end) == WavesRun(w, fs, rest, first.end);
      assert dirs[..k + 1][1..] == rest[..k] && dirs[..k + 1][0] == dirs[0];
      assert dirs[..k][1..] == rest[..k - 1] && dirs[..k][0] == dirs[0];
      assert WavesRun(w, fs, dirs[..k + 1], t) == WavesRun(w, fs, dirs, t);
      assert WavesRun(w, fs, dirs[..k], t).outcome.Ok?;
    }
  }

  // ----- apply_manifests -----

  /** With a `kustomization.yaml`, the cluster directory is applied once and nothing
      else is issued: no hook, no wave. */
  lemma KustomizationAppliesOnce(w: World, cfg: Config, fs: ClusterFiles, t: int)
    requires fs.hasKustomization
    ensures var r := ApplyManifestsRun(w, cfg, fs, t);
      r.outcome == Ok && r.events == [Event(ApplyK("config/clusters/" + cfg.clusterName), t)]
  {
  }

  /** The wave directories are the `wave*` entries of the cluster directory, each once
      per listing, in ascending order of their names. */
  lemma WaveDirsSortedByName(dir: string, listing: seq<string>)
    ensures var dirs := WaveDirs(dir, listing);
      dirs == Prefixed(dir + "/", Sort(WaveNames(listing))) &&
      Sorted(WaveDirs(dir, listing)) && Sorted(Sort(WaveNames(listing))) &&
      forall n :: multiset(Sort(WaveNames(listing)))[n] ==
        if IsWaveName(n) then multiset(listing)[n] else 0
  {
    SortPrefixed(dir + "/", WaveNames(listing));
  }

  /** Without a `kustomization.yaml`, the directories applied are a prefix of the
      wave directories in ascending order of their names, all of them when the run
      succeeds. */
  lemma WavesInSortedOrder(w: World, cfg: Config, fs: ClusterFiles, t: int)
    requires !fs.hasKustomization
    ensures var r := ApplyManifestsRun(w, cfg, fs, t);
      var dirs := Prefixed(ClusterDir(cfg) + "/", Sort(WaveNames(fs.listing)));
      AppliedDirs(r.events) <= dirs && (r.outcome.Ok? ==> AppliedDirs(r.events) == dirs)
  {
    var dirs := WaveDirs(ClusterDir(cfg), fs.listing);
    WaveDirsSortedByName(ClusterDir(cfg), fs.listing);
    WavesApplyInOrder(w, fs, dirs, t);
  }

  /** Without a `kustomization.yaml` and without `wave*` entries, nothing is issued
      and the run succeeds. */
  lemma NoWavesNoCommands(w: World, cfg: Config, fs: ClusterFiles, t: int)
    requires !fs.hasKustomization
    requires forall n :: n in fs.listing ==> !IsWaveName(n)
    ensures ApplyManifestsRun(w, cfg, fs, t) == Run([], Ok, t)
  {
    NoWaveNames(fs.listing);
    assert Prefixed(ClusterDir(cfg) + "/", []) == [];
  }

  ghost predicate AllKubectl(evs: seq<Event>)
  {
    forall i :: 0 <= i < |evs| ==> IsKubectlCmd(evs[i].cmd)
  }

  lemma AllKubectlAppend(a: seq<Event>, b: seq<Event>)
    requires AllKubectl(a) && AllKubectl(b)
    ensures AllKubectl(a + b)
  {
    forall i | 0 <= i < |a + b| ensures IsKubectlCmd((a + b)[i].cmd) {
      if i >= |a| {
        assert (a + b)[i] == b[i - |a|];
      }
    }
  }

  /** A wave issues only `kubectl` commands. */
  lemma WaveIssuesOnlyKubectl(w: World, fs: ClusterFiles, dir: string, t: int)
    ensures AllKubectl(WaveRun(w, fs, dir, t).events)
  {
    if dir in fs.waveYaml && fs.waveYaml[dir].Got? {
      var info := fs.waveYaml[dir].value;
      var pre := HooksRun(w, info, PreApply, t);
      HooksIssueOnlyHookCommands(w, info, PreApply, t);
      var t1 := Next(w, ApplyK(dir), pre.end);
      HooksIssueOnlyHookCommands(w, info, PostApply, t1);
      var post := HooksRun(w, info, PostApply, t1);
      AllKubectlAppend(pre.events, [Event(ApplyK(dir), pre.end)]);
      AllKubectlAppend(pre.events + [Event(ApplyK(dir), pre.end)], post.events);
    }
  }

  /** An apply run over waves issues only `kubectl` commands. */
  lemma {:induction false} WavesIssueOnlyKubectl(w: World, fs: ClusterFiles, dirs: seq<string>, t: int)
    ensures AllKubectl(WavesRun(w, fs, dirs, t).events)
    decreases |dirs|
  {
    if dirs != [] {
      var first := WaveRun(w, fs, dirs[0], t);
      WaveIssuesOnlyKubectl(w, fs, dirs[0], t);
      if first.outcome.Ok? {
        WavesIssueOnlyKubectl(w, fs, dirs[1..], first.end);
        AllKubectlAppend(first.events, WavesRun(w, fs, dirs[1..], first.end).events);
      }
    }
  }

  // ----- How the orchestrator can fail -----

  /** The ways the orchestrator can end the process: a CRD wait that fails or times
      out, an unrecognised hook, or an exception from a malformed document. */
  predicate IsWaveFailure(f: Failure)
  {
    f.CrdWaitError? || f.CrdTimeout? || f.UnrecognizedHook? || f.Uncaught?
  }

  /** `hook.waitForCRD.name` is the string `crd`. */
  predicate NamesCrd(hook: Value, crd: string)
  {
    match Get(hook, "waitForCRD")
    case Raised(_) => false
    case Got(spec) => Subscript(spec, "name") == Got(VStr(crd))
  }

  /** What a failure of one hook reports: an unrecognised hook carries its hook type
      and the hook itself, a CRD wait that fails or times out names the hook's CRD. */
  predicate ReportsHook(f: Failure, hookType: string, hook: Value)
  {
    match f
    case UnrecognizedHook(ht, h) => ht == hookType && h == hook
    case CrdTimeout(crd) => NamesCrd(hook, crd)
    case CrdWaitError(crd) => NamesCrd(hook, crd)
    case Uncaught(_) => true
    case UnknownOperation => false
  }

  lemma HookFailures(w: World, hookType: string, hook: Value, t: int)
    ensures var s := HookStep(w, hookType, hook, t);
      s.control.Exit? ==>
        IsWaveFailure(s.control.failure) && ReportsHook(s.control.failure, hookType, hook)
  {
    match Get(hook, "waitForCRD")
    case Raised(e) =>
    case Got(spec) =>
      if Truthy(spec) {
        match Subscript(spec, "name")
        case Raised(e) =>
        case Got(name) =>
          if name.VStr? {
            PollWaitsOnce(w, name.s, t + CrdWaitSecs, t);
          }
      }
  }

  /** A hook run that ends the process does so through its first hook, and an
      unrecognised hook is reported under the type of the run. */
  lemma HooksFailures(w: World, info: Value, hookType: string, t: int)
    ensures var r := HooksRun(w, info, hookType, t);
      r.outcome.Fatal? ==>
        IsWaveFailure(r.outcome.failure) &&
        (r.outcome.failure.UnrecognizedHook? ==> r.outcome.failure.hookType == hookType) &&
        (!r.outcome.failure.Uncaught? ==>
          HooksOf(info, hookType).Got? && Entries(HooksOf(info, hookType).value).Got? &&
          var hs := Entries(HooksOf(info, hookType).value).value;
          hs != [] && ReportsHook(r.outcome.failure, hookType, hs[0]))
  {
    match HooksOf(info, hookType)
    case Raised(e) =>
    case Got(hooks) =>
      match Entries(hooks)
      case Raised(e) =>
      case Got(hs) =>
        if hs != [] {
          HookNeverContinues(w, hookType, hs[0], t);
          HookFailures(w, hookType, hs[0], t);
        }
  }

  /** A wave fails through one of its hook runs or an exception, and an unrecognised
      hook is reported as a `preApply` or a `postApply` hook. */
  lemma WaveFailures(w: World, fs: ClusterFiles, dir: string, t: int)
    ensures var r := WaveRun(w, fs, dir, t);
      r.outcome.Fatal? ==>
        IsWaveFailure(r.outcome.failure) &&
        (r.outcome.failure.UnrecognizedHook? ==>
          r.outcome.failure.hookType == PreApply || r.outcome.failure.hookType == PostApply)
  {
    if dir in fs.waveYaml && fs.waveYaml[dir].Got? {
      var info := fs.waveYaml[dir].value;
      var pre := HooksRun(w, info, PreApply, t);
      HooksFailures(w, info, PreApply, t);
      HooksFailures(w, info, PostApply, Next(w, ApplyK(dir), pre.end));
    }
  }

  lemma {:induction false} WavesFailures(w: World, fs: ClusterFiles, dirs: seq<string>, t: int)
    ensures var r := WavesRun(w, fs, dirs, t);
      r.outcome.Fatal? ==>
        IsWaveFailure(r.outcome.failure) &&
        (r.outcome.failure.UnrecognizedHook? ==>
          r.outcome.failure.hookType == PreApply || r.outcome.failure.hookType == PostApply)
    decreases |dirs|
  {
    if dirs != [] {
      var first := WaveRun(w, fs, dirs[0], t);
      WaveFailures(w, fs, dirs[0], t);
      if first.outcome.Ok? {
        WavesFailures(w, fs, dirs[1..], first.end);
      }
    }
  }

  /** `apply_manifests` ends the process only through a hook or an exception; with a
      `kustomization.yaml` it never does. */
  lemma ApplyManifestsFailures(w: World, cfg: Config, fs: ClusterFiles, t: int)
    ensures var r := ApplyManifestsRun(w, cfg, fs, t);
      (r.outcome.Fatal? ==>
        IsWaveFailure(r.outcome.failure) &&
        (r.outcome.failure.UnrecognizedHook? ==>
          r.outcome.failure.hookType == PreApply || r.outcome.failure.hookType == PostApply)) &&
      (fs.hasKustomization ==> r.outcome == Ok)
  {
    if !fs.hasKustomization {
      WavesFailures(w, fs, WaveDirs(ClusterDir(cfg), fs.listing), t);
    }
  }

  /** `apply_manifests` issues only `kubectl` commands. */
  lemma ApplyManifestsOnlyKubectl(w: World, cfg: Config, fs: ClusterFiles, t: int)
    ensures AllKubectl(ApplyManifestsRun(w, cfg, fs, t).events)
  {
    if !fs.hasKustomization {
      WavesIssueOnlyKubectl(w, fs, WaveDirs(ClusterDir(cfg), fs.listing), t);
    }
  }

  // ----- The orchestrator against a shell -----

  /** The trace bookkeeping of one turn of the polling loop. */
  lemma PollTurn(w: World, crd: string, deadline: int, t: int,
                 start: seq<Event>, whole: Step, before: seq<Event>)
    requires t < deadline
    requires var cur := Poll(w, crd, deadline, t);
      start + whole.events == before + cur.events &&
      whole.control == cur.control && whole.end == cur.end
    ensures var get := GetCrd(crd); var t1 := Next(w, get, t);
      var wait := WaitEstablished(crd, deadline - t1);
      (w.exitCode(get, t) != 0 ==>
        var rest := Poll(w, crd, deadline, t1);
        start + whole.events == before + [Event(get, t)] + rest.events &&
        whole.control == rest.control && whole.end == rest.end) &&
      (w.exitCode(get, t) == 0 ==>
        start + whole.events == before + [Event(get, t)] + [Event(wait, t1)] &&
        whole.end == Next(w, wait, t1) &&
        whole.control == if w.exitCode(wait, t1) != 0 then Exit(CrdWaitError(crd)) else Return)
  {
    var get := GetCrd(crd);
    var t1 := Next(w, get, t);
    if w.exitCode(get, t) != 0 {
      var rest := Poll(w, crd, deadline, t1);
      assert before + ([Event(get, t)] + rest.events) == before + [Event(get, t)] + rest.events;
    } else {
      var wait := WaitEstablished(crd, deadline - t1);
      assert before + [Event(get, t), Event(wait, t1)] == before + [Event(get, t)] + [Event(wait, t1)];
    }
  }

  /** The `waitForCRD` polling loop for one hook. */
  method WaitForCrd(sh: Shell, crd: string) returns (ctl: Control)
    modifies sh
    ensures var s := Poll(sh.world, crd, old(sh.now) + CrdWaitSecs, old(sh.now));
      sh.trace == old(sh.trace) + s.events && sh.now == s.end && ctl == s.control
  {
    var start := sh.Clock();
    var deadline := start + CrdWaitSecs;
    ghost var whole := Poll(sh.world, crd, deadline, start);
    var now := sh.Clock();
    while now < deadline
      invariant now == sh.now
      invariant var rest := Poll(sh.world, crd, deadline, now);
        old(sh.trace) + whole.events == sh.trace + rest.events &&
        whole.control == rest.control && whole.end == rest.end
      decreases deadline - now
    {
      PollTurn(sh.world, crd, deadline, now, old(sh.trace), whole, sh.trace);
      var code := sh.Exec(GetCrd(crd));
      if code == 0 {
        var left := sh.Clock();
        var waitCode := sh.Exec(WaitEstablished(crd, deadline - left));
        if waitCode != 0 {
          return Exit(CrdWaitError(crd));
        }
        return Return;
      }
      now := sh.Clock();
    }
    return Exit(CrdTimeout(crd));
  }

  /** The body of `for hook in hooks`. */
  method RunHook(sh: Shell, hookType: string, hook: Value) returns (ctl: Control)
    modifies sh
    ensures var s := HookStep(sh.world, hookType, hook, old(sh.now));
      sh.trace == old(sh.trace) + s.events && sh.now == s.end && ctl == s.control
  {
    var spec := Get(hook, "waitForCRD");
    if spec.Raised? {
      return Exit(Uncaught(spec.error));
    }
    if !Truthy(spec.value) {
      return Exit(UnrecognizedHook(hookType, hook));
    }
    var name := Subscript(spec.value, "name");
    if name.Raised? {
      return Exit(Uncaught(name.error));
    }
    if !name.value.VStr? {
      return Exit(Uncaught(TypeError));
    }
    ctl := WaitForCrd(sh, name.value.s);
  }

  /** The trace bookkeeping of one turn of the hook loop. */
  lemma HookLoopTurn(w: World, hookType: string, hooks: seq<Value>, i: int, t: int,
                     start: seq<Event>, whole: Run, before: seq<Event>, after: seq<Event>)
    requires 0 <= i < |hooks|
    requires var cur := HookLoop(w, hookType, hooks[i..], t);
      start + whole.events == before + cur.events &&
      whole.outcome == cur.outcome && whole.end == cur.end
    requires after == before + HookStep(w, hookType, hooks[i], t).events
    ensures var s := HookStep(w, hookType, hooks[i], t);
      (s.control == Return ==> start + whole.events == after && whole.outcome == Ok && whole.end == s.end) &&
      (s.control.Exit? ==>
        start + whole.events == after && whole.outcome == Fatal(s.control.failure) && whole.end == s.end) &&
      (s.control == Continue ==>
        var rest := HookLoop(w, hookType, hooks[i + 1..], s.end);
        start + whole.events == after + rest.events &&
        whole.outcome == rest.outcome && whole.end == rest.end)
  {
    assert hooks[i..][0] == hooks[i] && hooks[i..][1..] == hooks[i + 1..];
    var s := HookStep(w, hookType, hooks[i], t);
    if s.control == Continue {
      var rest := HookLoop(w, hookType, hooks[i + 1..], s.end);
      assert before + (s.events + rest.events) == after + rest.events;
    }
  }

  /** `_run_wave_hooks`. */
  method RunWaveHooks(sh: Shell, info: Value, hookType: string) returns (out: Outcome)
    modifies sh
    ensures var r := HooksRun(sh.world, info, hookType, old(sh.now));
      sh.trace == old(sh.trace) + r.events && sh.now == r.end && out == r.outcome
  {
    var found := HooksOf(info, hookType);
    if found.Raised? {
      if found.error == KeyError {
        return Ok;
      }
      return Fatal(Uncaught(found.error));
    }
    var entries := Entries(found.value);
    if entries.Raised? {
      return Fatal(Uncaught(entries.error));
    }
    var hooks := entries.value;
    ghost var whole := HookLoop(sh.world, hookType, hooks, sh.now);
    var i := 0;
    assert hooks[i..] == hooks;
    while i < |hooks|
      invariant 0 <= i <= |hooks|
      invariant var rest := HookLoop(sh.world, hookType, hooks[i..], sh.now);
        old(sh.trace) + whole.events == sh.trace + rest.events &&
        whole.outcome == rest.outcome && whole.end == rest.end
    {
      ghost var t, before := sh.now, sh.trace;
      var ctl := RunHook(sh, hookType, hooks[i]);
      HookLoopTurn(sh.world, hookType, hooks, i, t, old(sh.trace), whole, before, sh.trace);
      match ctl
      case Return =>
        return Ok;
      case Exit(f) =>
        return Fatal(f);
      case Continue =>
        i := i + 1;
    }
    assert hooks[i..] == [];
    return Ok;
  }

  /** `_apply_wave`; the exit status of `kubectl apply -k` is ignored. */
  method ApplyWave(sh: Shell, fs: ClusterFiles, dir: string) returns (out: Outcome)
    modifies sh
    ensures var r := WaveRun(sh.world, fs, dir, old(sh.now));
      sh.trace == old(sh.trace) + r.events && sh.now == r.end && out == r.outcome
  {
    if dir !in fs.waveYaml {
      return Fatal(Uncaught(UnboundLocalError));
    }
    if fs.waveYaml[dir].Raised? {
      return Fatal(Uncaught(fs.waveYaml[dir].error));
    }
    var info := fs.waveYaml[dir].value;
    ghost var tr0 := sh.trace;
    ghost var pre := HooksRun(sh.world, info, PreApply, sh.now);
    out := RunWaveHooks(sh, info, PreApply);
    if out.Fatal? {
      return;
    }
    ghost var tr1 := sh.trace;
    ghost var apply := Issue(sh.world, ApplyK(dir), sh.now);
    var _ := sh.Exec(ApplyK(dir));
    ghost var tr2 := sh.trace;
    ghost var post := HooksRun(sh.world, info, PostApply, sh.now);
    out := RunWaveHooks(sh, info, PostApply);
    ThreeStepTrace(pre, apply, post, tr0, tr1, tr2, sh.trace);
  }

  lemma WavesStep(w: World, fs: ClusterFiles, dirs: seq<string>, t: int)
    requires dirs != []
    ensures var first := WaveRun(w, fs, dirs[0], t);
      var rest := WavesRun(w, fs, dirs[1..], first.end);
      WavesRun(w, fs, dirs, t) ==
        if first.outcome.Fatal? then first
        else Run(first.events + rest.events, rest.outcome, rest.end)
  {
  }

  /** One turn of the loop of `ApplyWaves`, told in terms of traces. */
  lemma WavesLoopStep(w: World, fs: ClusterFiles, dirs: seq<string>, i: int, t: int,
                      start: seq<Event>, whole: Run, before: seq<Event>, after: seq<Event>)
    requires 0 <= i < |dirs|
    requires var rest := WavesRun(w, fs, dirs[i..], t);
      start + whole.events == before + rest.events &&
      whole.outcome == rest.outcome && whole.end == rest.end
    requires after == before + WaveRun(w, fs, dirs[i], t).events
    ensures var first := WaveRun(w, fs, dirs[i], t);
      (first.outcome.Fatal? ==>
        start + whole.events == after && whole.outcome == first.outcome && whole.end == first.end) &&
      (first.outcome.Ok? ==>
        var rest := WavesRun(w, fs, dirs[i + 1..], first.end);
        start + whole.events == after + rest.events &&
        whole.outcome == rest.outcome && whole.end == rest.end)
  {
    assert dirs[i..][0] == dirs[i] && dirs[i..][1..] == dirs[i + 1..];
    WavesStep(w, fs, dirs[i..], t);
    var first := WaveRun(w, fs, dirs[i], t);
    ThenStep(first, WavesRun(w, fs, dirs[i + 1..], first.end), WavesRun(w, fs, dirs[i..], t),
             start, whole, before, after);
  }

  /** The loop of `apply_manifests` over the sorted wave directories. */
  method ApplyWaves(sh: Shell, fs: ClusterFiles, dirs: seq<string>) returns (out: Outcome)
    modifies sh
    ensures var r := WavesRun(sh.world, fs, dirs, old(sh.now));
      sh.trace == old(sh.trace) + r.events && sh.now == r.end && out == r.outcome
  {
    ghost var whole := WavesRun(sh.world, fs, dirs, sh.now);
    var i := 0;
    assert dirs[i..] == dirs;
    while i < |dirs|
      invariant 0 <= i <= |dirs|
      invariant var rest := WavesRun(sh.world, fs, dirs[i..], sh.now);
        old(sh.trace) + whole.events == sh.trace + rest.events &&
        whole.outcome == rest.outcome && whole.end == rest.end
    {
      ghost var t := sh.now;
      ghost var before := sh.trace;
      out := ApplyWave(sh, fs, dirs[i]);
      WavesLoopStep(sh.world, fs, dirs, i, t, old(sh.trace), whole, before, sh.trace);
      if out.Fatal? {
        return;
      }
      i := i + 1;
    }
    assert dirs[i..] == [];
    return Ok;
  }

  /** `apply_manifests`. */
  method ApplyManifests(sh: Shell, cfg: Config, fs: ClusterFiles) returns (out: Outcome)
    modifies sh
    ensures var r := ApplyManifestsRun(sh.world, cfg, fs, old(sh.now));
      sh.trace == old(sh.trace) + r.events && sh.now == r.end && out == r.outcome
  {
    var dir := ClusterDir(cfg);
    if fs.hasKustomization {
      var _ := sh.Exec(ApplyK(dir));
      return Ok;
    }
    out := ApplyWaves(sh, fs, WaveDirs(dir, fs.listing));
  }
}
