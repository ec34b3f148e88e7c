/** The running stage: a runnable test gets a container with its own and its
    dependencies' folders bound in, its dependencies installed in order, and
    its on-device script executed; it leaves Terminated either way. */
module Running {
  import opened Wrappers
  import opened Paths
  import opened TestsConfig
  import opened Configuration
  import opened RunningTests
  import opened HtpTests
  import opened Pipeline

  /** The one environment the stage supports: this image, with `/htp` as
      the in-container root. */
  const RunnerSpec := DockerSpec("ghcr.io/viamrobotics/canon:amd64-cache", Path(true, [Text("htp")]))

  const InstallFailed := "Failed to install dep"

  /** What the stage asks the container to execute. */
  datatype ExecRequest = ExecRequest(env: seq<string>, workingDir: string, cmd: seq<string>)

  /** Both of a dependency's mounts can be rendered as bind strings. */
  predicate DepMountable(dep: Dependency, root: Path)
  {
    Representable(root) && Representable(dep.buildInputFolder.path) && Representable(dep.buildOutputFolder.path)
  }

  predicate DepsMountable(deps: seq<Dependency>, root: Path)
  {
    forall i :: 0 <= i < |deps| ==> DepMountable(deps[i], root)
  }

  /** A dependency's two bind strings, `host:inner`, input then output. */
  function DependencyBindPair(dep: Dependency, root: Path): seq<string>
    requires DepMountable(dep, root)
  {
    var m := DependencyMountMap(dep, root).sets;
    JoinRepresentable(root, "dependencies");
    JoinRepresentable(Join(root, "dependencies"), dep.name + "-" + dep.ver);
    JoinRepresentable(DependencyInnerRoot(dep, root), "input");
    JoinRepresentable(DependencyInnerRoot(dep, root), "output");
    [ToStr(m[0].hostPath).value + ":" + ToStr(m[0].innerPath).value,
     ToStr(m[1].hostPath).value + ":" + ToStr(m[1].innerPath).value]
  }

  /** `mount_points` of a dependency's mount map succeeds exactly when its
      folders and the root are representable, and then yields the pair. */
  lemma DependencyMountPoints(dep: Dependency, root: Path)
    ensures MountPointsOf(DependencyMountMap(dep, root).sets).Success? <==> DepMountable(dep, root)
    ensures DepMountable(dep, root) ==> MountPointsOf(DependencyMountMap(dep, root).sets) == Success(DependencyBindPair(dep, root))
  {
    var m := DependencyMountMap(dep, root).sets;
    JoinRepresentable(root, "dependencies");
    JoinRepresentable(Join(root, "dependencies"), dep.name + "-" + dep.ver);
    JoinRepresentable(DependencyInnerRoot(dep, root), "input");
    JoinRepresentable(DependencyInnerRoot(dep, root), "output");
    var r := MountPointsOf(m);
    if DepMountable(dep, root) {
      assert MountRepresentable(m[0]) && MountRepresentable(m[1]);
      assert |r.value| == 2;
      assert r.value == DependencyBindPair(dep, root);
    }
    if r.Success? {
      assert MountRepresentable(m[0]) && MountRepresentable(m[1]);
    }
  }

  /** Each dependency's pair of bind strings, in dependency order. */
  function BindPairs(deps: seq<Dependency>, root: Path): (pairs: seq<seq<string>>)
    requires DepsMountable(deps, root)
    ensures |pairs| == |deps|
    ensures forall j :: 0 <= j < |deps| ==> pairs[j] == DependencyBindPair(deps[j], root) && |pairs[j]| == 2
  {
    seq(|deps|, j requires 0 <= j < |deps| => DependencyBindPair(deps[j], root))
  }

  /** The pieces, one after another. */
  function Flatten(pieces: seq<seq<string>>): seq<string>
  {
    if pieces == [] then [] else Flatten(pieces[..|pieces| - 1]) + pieces[|pieces| - 1]
  }

  /** The dependencies' bind strings, one dependency after another. */
  function DependencyBinds(deps: seq<Dependency>, root: Path): seq<string>
    requires DepsMountable(deps, root)
  {
    Flatten(BindPairs(deps, root))
  }

  lemma SliceAppend(pre: seq<string>, last: seq<string>, a: nat, b: nat)
    requires a <= b <= |pre| || (a == |pre| && b == |pre| + |last|)
    ensures b <= |pre| ==> (pre + last)[a..b] == pre[a..b]
    ensures a == |pre| && b == |pre| + |last| ==> (pre + last)[a..b] == last
  {
  }

  /** Extending the prefix by one dependency appends its pair. */
  lemma DependencyBindsSnoc(deps: seq<Dependency>, i: nat, root: Path)
    requires DepsMountable(deps, root) && i < |deps|
    ensures DepsMountable(deps[..i], root) && DepsMountable(deps[..i + 1], root)
    ensures DependencyBinds(deps[..i + 1], root) == DependencyBinds(deps[..i], root) + DependencyBindPair(deps[i], root)
  {
    var p := BindPairs(deps[..i + 1], root);
    assert p[..i] == BindPairs(deps[..i], root);
  }

  /** Flattening pairs doubles the length. */
  lemma {:induction false} FlattenLength(pieces: seq<seq<string>>)
    requires forall j :: 0 <= j < |pieces| ==> |pieces[j]| == 2
    ensures |Flatten(pieces)| == 2 * |pieces|
  {
    if pieces != [] {
      FlattenLength(pieces[..|pieces| - 1]);
    }
  }

  /** Pair `i` sits at positions `2i` and `2i + 1` of the flattened list. */
  lemma {:induction false} FlattenAt(pieces: seq<seq<string>>, i: nat)
    requires forall j :: 0 <= j < |pieces| ==> |pieces[j]| == 2
    requires i < |pieces|
    ensures 2 * i + 2 <= |Flatten(pieces)|
    ensures Flatten(pieces)[2 * i .. 2 * i + 2] == pieces[i]
  {
    var n := |pieces|;
    var init := pieces[..n - 1];
    FlattenLength(init);
    var pre := Flatten(init);
    var last := pieces[n - 1];
    if i < n - 1 {
      FlattenAt(init, i);
      SliceAppend(pre, last, 2 * i, 2 * i + 2);
    } else {
      SliceAppend(pre, last, |pre|, |pre| + |last|);
    }
  }

  /** Each dependency contributes its two binds, input then output, at
      positions `2i` and `2i + 1`. */
  lemma DependencyBindsLayout(deps: seq<Dependency>, root: Path)
    requires DepsMountable(deps, root)
    ensures |DependencyBinds(deps, root)| == 2 * |deps|
    ensures forall i :: 0 <= i < |deps| ==>
              DependencyBinds(deps, root)[2 * i .. 2 * i + 2] == DependencyBindPair(deps[i], root)
  {
    var pairs := BindPairs(deps, root);
    FlattenLength(pairs);
    forall i | 0 <= i < |deps|
      ensures DependencyBinds(deps, root)[2 * i .. 2 * i + 2] == DependencyBindPair(deps[i], root)
    {
      FlattenAt(pairs, i);
    }
  }

  /** The first failed install, if any. */
  function FirstFailure(results: seq<Outcome<Error>>): (k: Option<nat>)
    ensures k.None? <==> forall j :: 0 <= j < |results| ==> results[j].Pass?
    ensures k.Some? ==> k.value < |results| && results[k.value].Fail?
                        && forall j :: 0 <= j < k.value ==> results[j].Pass?
  {
    if results == [] then None
    else if results[0].Fail? then Some(0)
    else
      var rest := FirstFailure(results[1..]);
      assert forall j :: 1 <= j < |results| ==> results[j] == results[1..][j - 1];
      if rest.None? then None else Some(rest.value + 1)
  }

  /** What `run` unwraps or looks up without handling failure: a Runnable
      record with dependencies, a registry entry, bind strings for every
      mount, one install outcome per dependency, and, when every install
      succeeds, the test's on-device script. */
  predicate RunRequires(t: HtpTest, registry: seq<RunningTestMapEntry>, installResults: seq<Outcome<Error>>)
  {
    && t.stage == Runnable
    && t.dependencies.Some?
    && HasEntry(registry, t.testSpecId)
    && TestMountable(t)
    && DepsMountable(t.dependencies.value, RunnerSpec.htpRoot)
    && |installResults| == |t.dependencies.value|
    && (FirstFailure(installResults).None? ==>
          HasTestSpec(t) && GetTestSpec(t).onDeviceTestScript.Some?)
  }

  /** The record `run` returns: Terminated either way, and on the first
      failed install an error carrying that install's error. */
  function RunResult(t: HtpTest, installResults: seq<Outcome<Error>>): Result<HtpTest, StageError>
  {
    var k := FirstFailure(installResults);
    if k.Some? then Failure(StageError(InstallFailed, installResults[k.value].error, t.(stage := Terminated)))
    else Success(t.(stage := Terminated))
  }

  /** The container root renders as `/htp`, and its config and persist
      folders as `/htp/config` and `/htp/persist`. */
  lemma RunnerRootRendering()
    ensures ToStr(Join(RunnerSpec.htpRoot, "config")) == Some("/htp/config")
    ensures ToStr(Join(RunnerSpec.htpRoot, "persist")) == Some("/htp/persist")
  {
    var root := RunnerSpec.htpRoot;
    assert Representable(root);
    assert JoinParts(root.parts) == "htp";
    assert "/" + "htp" == "/htp";
    assert ToStr(root) == Some("/htp");
    ToStrJoin(root, "config");
    ToStrJoin(root, "persist");
    assert "/htp" + "/" + "config" == "/htp/config";
    assert "/htp" + "/" + "persist" == "/htp/persist";
  }

  /** The in-container variables the test script sees: exactly its config
      and persist folders under `/htp`. */
  lemma RunEnvironment(t: HtpTest)
    requires PostValidation(t.stage)
    ensures EnvVarsOf(TestMountMap(t, RunnerSpec.htpRoot).sets) == Success(["HTP_CONFIG=/htp/config", "HTP_PERSIST=/htp/persist"])
  {
    RunnerRootRendering();
    var sets := TestMountMap(t, RunnerSpec.htpRoot).sets;
    var r := EnvVarsOf(sets);
    assert r.Success? && |r.value| == 2;
    assert r.value[0] == "HTP_CONFIG" + "=" + "/htp/config" == "HTP_CONFIG=/htp/config";
    assert r.value[1] == "HTP_PERSIST" + "=" + "/htp/persist" == "HTP_PERSIST=/htp/persist";
    assert r.value == ["HTP_CONFIG=/htp/config", "HTP_PERSIST=/htp/persist"];
  }

  /** Both of the test's own folders are representable. */
  predicate TestMountable(t: HtpTest)
  {
    Representable(t.configFolder.path) && Representable(t.persistFolder.path)
  }

  /** The test's two bind strings under the container root. */
  function TestBindPair(t: HtpTest): seq<string>
    requires TestMountable(t)
  {
    [ToStr(t.configFolder.path).value + ":" + "/htp/config", ToStr(t.persistFolder.path).value + ":" + "/htp/persist"]
  }

  /** `mount_points` of the test's mount map under `/htp` succeeds exactly
      when its folders are representable, and binds config then persist. */
  lemma TestMountPoints(t: HtpTest)
    requires PostValidation(t.stage)
    ensures MountPointsOf(TestMountMap(t, RunnerSpec.htpRoot).sets).Success? <==> TestMountable(t)
    ensures TestMountable(t) ==> MountPointsOf(TestMountMap(t, RunnerSpec.htpRoot).sets) == Success(TestBindPair(t))
  {
    RunnerRootRendering();
    var m := TestMountMap(t, RunnerSpec.htpRoot).sets;
    var r := MountPointsOf(m);
    if TestMountable(t) {
      assert MountRepresentable(m[0]) && MountRepresentable(m[1]);
      assert |r.value| == 2;
      assert r.value[0] == ToStr(t.configFolder.path).value + ":" + "/htp/config";
      assert r.value[1] == ToStr(t.persistFolder.path).value + ":" + "/htp/persist";
      assert r.value == TestBindPair(t);
    }
    if r.Success? {
      assert MountRepresentable(m[0]) && MountRepresentable(m[1]);
    }
  }

  /** The bind list of `run`: the test's mount points, then each
      dependency's, in dependency order. */
  method BindList(t: HtpTest) returns (binds: seq<string>)
    requires PostValidation(t.stage) && t.dependencies.Some?
    requires TestMountable(t) && DepsMountable(t.dependencies.value, RunnerSpec.htpRoot)
    ensures binds == TestBindPair(t) + DependencyBinds(t.dependencies.value, RunnerSpec.htpRoot)
  {
    var root := RunnerSpec.htpRoot;
    var head := UnwrapTestMountPoints(t);
    binds := head;
    var deps := GetDependencies(t);
    ghost var tail: seq<string> := [];
    for i := 0 to |deps|
      invariant DepsMountable(deps[..i], root)
      invariant tail == DependencyBinds(deps[..i], root)
      invariant binds == head + tail
    {
      DependencyBindsSnoc(deps, i, root);
      var points := UnwrapDependencyMountPoints(deps[i], root);
      assert binds + points == head + (tail + points);
      binds := binds + points;
      tail := tail + points;
    }
    assert deps[..|deps|] == deps;
  }

  /** `test_mount_map(root).mount_points().unwrap()` under the container root. */
  method UnwrapTestMountPoints(t: HtpTest) returns (points: seq<string>)
    requires PostValidation(t.stage) && TestMountable(t)
    ensures points == TestBindPair(t)
  {
    TestMountPoints(t);
    var r := MountPoints(TestMountMap(t, RunnerSpec.htpRoot));
    points := r.value;
  }

  /** `dependency_mount_map(root).mount_points().unwrap()`. */
  method UnwrapDependencyMountPoints(dep: Dependency, root: Path) returns (points: seq<string>)
    requires DepMountable(dep, root)
    ensures points == DependencyBindPair(dep, root)
  {
    DependencyMountPoints(dep, root);
    var r := MountPoints(DependencyMountMap(dep, root));
    points := r.value;
  }

  /** The install loop of `run`: installs in order and stops at the first
      failure, whose position it returns. */
  method InstallDependencies(deps: seq<Dependency>, installResults: seq<Outcome<Error>>) returns (failed: Option<nat>)
    requires |installResults| == |deps|
    ensures failed == FirstFailure(installResults)
  {
    for i := 0 to |deps|
      invariant forall j :: 0 <= j < i ==> installResults[j].Pass?
    {
      if installResults[i].Fail? {
        return Some(i);
      }
    }
    return None;
  }

  /** `HtpTest<Runnable>::run`, with the container calls abstracted: it
      returns the bind list the container is created with, the outcomes of
      the dependency installs are a parameter, and it returns the exec
      request instead of executing it. */
  method Run(t: HtpTest, registry: RunningTestMap, installResults: seq<Outcome<Error>>)
    returns (r: Result<HtpTest, StageError>, binds: seq<string>, exec: Option<ExecRequest>)
    requires RunRequires(t, registry.entries, installResults)
    modifies registry
    ensures r == RunResult(t, installResults)
    ensures registry.entries == Restage(old(registry.entries), t.testSpecId, "Terminated")
    ensures binds == TestBindPair(t) + DependencyBinds(t.dependencies.value, RunnerSpec.htpRoot)
    ensures exec.Some? <==> r.Success?
    ensures exec.Some? ==>
              exec.value == ExecRequest(["HTP_CONFIG=/htp/config", "HTP_PERSIST=/htp/persist"], "/htp/config",
                                        ["/usr/bin/env", "bash", "-c", GetTestSpec(t).onDeviceTestScript.value])
  {
    var root := RunnerSpec.htpRoot;
    binds := BindList(t);
    var failed := InstallDependencies(GetDependencies(t), installResults);
    if failed.Some? {
      var terminated := CloneInto(t, Terminated, registry);
      return Failure(StageError(InstallFailed, installResults[failed.value].error, terminated)), binds, None;
    }
    var command := GetTestSpec(t).onDeviceTestScript.value;
    RunEnvironment(t);
    RunnerRootRendering();
    var env := EnvVars(TestMountMap(t, root));
    var workingDir := ToStr(Join(root, "config")).value;
    exec := Some(ExecRequest(env.value, workingDir, ["/usr/bin/env", "bash", "-c", command]));
    var terminated := CloneInto(t, Terminated, registry);
    r := Success(terminated);
  }

  class Runner {
    const input: TestChannel
    const output: TestChannel
    const outputTerminated: TestChannel

    /** The channel types of `Runner`: Runnable in, Terminated out on both
        outputs (which may be one channel). */
    predicate Wired()
      reads input, output, outputTerminated
    {
      && input.stage == Runnable && output.stage == Terminated && outputTerminated.stage == Terminated
      && input.Valid() && output.Valid() && outputTerminated.Valid()
    }

    constructor (input: TestChannel, output: TestChannel, outputTerminated: TestChannel)
      ensures this.input == input && this.output == output && this.outputTerminated == outputTerminated
    {
      this.input := input;
      this.output := output;
      this.outputTerminated := outputTerminated;
    }

    /** `desired_poll_delay`, in milliseconds. */
    function DesiredPollDelay(): (ms: nat)
      ensures 0 < ms <= MaxPollDelay
    {
      100
    }

    /** `process_one`: with nothing queued, nothing happens; otherwise the
        oldest test is run and sent, exactly once, on `output` when the run
        succeeds and on `output_terminated` when an install failed. */
    method ProcessOne(registry: RunningTestMap, installResults: seq<Outcome<Error>>) returns (res: Outcome<Error>)
      requires Wired()
      requires input.items != [] ==> RunRequires(input.items[0], registry.entries, installResults)
      modifies input, output, outputTerminated, registry
      ensures Wired()
      ensures input.closed == old(input.closed) && output.closed == old(output.closed)
      ensures outputTerminated.closed == old(outputTerminated.closed)
      ensures old(input.items) == [] ==>
                && res == Pass && input.items == [] && registry.entries == old(registry.entries)
                && output.items == old(output.items) && outputTerminated.items == old(outputTerminated.items)
      ensures old(input.items) != [] ==>
                var t := old(input.items)[0];
                var rr := RunResult(t, installResults);
                var ch := Target(rr, output, outputTerminated);
                && input.items == old(input.items)[1..]
                && registry.entries == Restage(old(registry.entries), t.testSpecId, "Terminated")
                && ch.items == old(ch.items) + (if ch.closed then [] else [t.(stage := Terminated)])
                && res == (if ch.closed then Fail(SendError) else Pass)
                && (output != outputTerminated ==>
                      if rr.Success? then outputTerminated.items == old(outputTerminated.items)
                      else output.items == old(output.items))
    {
      var toRun := input.TryRecv();
      if toRun.None? {
        return Pass;
      }
      var rund, _, _ := Run(toRun.value, registry, installResults);
      res := Route(rund, output, outputTerminated);
    }
  }
}
