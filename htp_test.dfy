/** The test record and its lifecycle: stage tags, creation and re-tagging
    (both of which update the running-test registry), the accessors that
    only post-validation stages have, dependencies, and the mount maps handed
    to the execution environment. */
module HtpTests {
  import opened Wrappers
  import opened Paths
  import opened TestsConfig
  import opened Configuration
  import Folder
  import opened RunningTests

  type TestId = nat

  /** Scheduling priority: a rank (lower is more urgent) and a display title. */
  datatype TestPriority = TestPriority(rank: nat, title: string)

  const PriorityAdmin := TestPriority(0, "Admin (Manual)")

  /** The typestate parameter of `HtpTest<Stage>`, as a tag. */
  datatype Stage = Queued | Validated | Prepared | Aquiring | Runnable | Terminated

  /** `TestStage::name`. */
  function Name(s: Stage): string
  {
    match s
    case Queued => "Queued"
    case Validated => "Validated"
    case Prepared => "Prepared"
    case Aquiring => "Aquiring"
    case Runnable => "Runnable"
    case Terminated => "Terminated"
  }

  /** The stages that implement `PostValidation`. */
  predicate PostValidation(s: Stage)
  {
    s == Validated || s == Prepared || s == Aquiring || s == Runnable
  }

  /** Stage names tell stages apart: the registry's stage strings are unambiguous. */
  lemma NamesDistinct(a: Stage, b: Stage)
    ensures Name(a) == Name(b) <==> a == b
  {
  }

  datatype Dependency = Dependency(
    name: string,
    ver: string,
    spec: DependencySpecification,
    buildInputFolder: Folder.HtpFolder,
    buildOutputFolder: Folder.HtpFolder)

  /** `HtpTest<Stage>`: the stage type parameter is the `stage` field. The
      shared registry handle is not a field: it is passed to the operations
      that use it. */
  datatype HtpTest = HtpTest(
    id: TestId,
    orchestratorConfig: OrchestratorConfig,
    configFolder: Folder.HtpFolder,
    persistFolder: Folder.HtpFolder,
    config: Option<Config>,
    dependencies: Option<seq<Dependency>>,
    testSpecId: TestSpecificationId,
    priority: TestPriority,
    error: Option<Error>,
    stage: Stage)

  /** The version tag a new test's folders and registry entry carry. */
  const TestVersion := "0"

  /** The version tag every dependency is created with. */
  const DependencyVersion := "VER"

  /** The error `HtpTest::new` reports: the first of its three filesystem steps that fails. */
  function NewError(configCreate: Option<Error>, copyError: Option<Error>, persistCreate: Option<Error>): Option<Error>
  {
    if configCreate.Some? then Some(Folder.CreateError(configCreate.value))
    else if copyError.Some? then Some(Folder.CopyError(copyError.value))
    else if persistCreate.Some? then Some(Folder.CreateError(persistCreate.value))
    else None
  }

  /** `HtpTest::new`: creates the config folder, seeds it, creates the persist
      folder, then registers the test as Queued. The three filesystem outcomes
      are parameters. */
  method New(orchestratorConfig: OrchestratorConfig, testSpecId: TestSpecificationId, priority: TestPriority,
             testMap: RunningTestMap, configCreate: Option<Error>, copyError: Option<Error>, persistCreate: Option<Error>)
    returns (r: Result<HtpTest, Error>)
    modifies testMap
    ensures r.Success? <==> NewError(configCreate, copyError, persistCreate).None?
    ensures r.Failure? ==> Some(r.error) == NewError(configCreate, copyError, persistCreate)
    ensures r.Failure? ==> testMap.entries == old(testMap.entries)
    ensures r.Success? ==> testMap.entries == old(testMap.entries) + [RunningTestMapEntry(testSpecId, TestVersion, Name(Queued))]
    ensures r.Success? ==>
      var root := orchestratorConfig.htpFolderRoot;
      r.value == HtpTest(0, orchestratorConfig,
                         Folder.HtpFolder(Folder.TestFolderPath(root, Folder.Config, testSpecId, TestVersion), Folder.Test(Folder.Config)),
                         Folder.HtpFolder(Folder.TestFolderPath(root, Folder.Persist, testSpecId, TestVersion), Folder.Test(Folder.Persist)),
                         None, None, testSpecId, priority, None, Queued)
  {
    var testId := 0;
    var configFolder := Folder.NewTest(orchestratorConfig, Folder.Config, testSpecId, TestVersion, configCreate);
    if configFolder.Failure? {
      return Failure(configFolder.error);
    }
    if copyError.Some? {
      return Failure(Folder.CopyError(copyError.value));
    }
    var persistFolder := Folder.NewTest(orchestratorConfig, Folder.Persist, testSpecId, TestVersion, persistCreate);
    if persistFolder.Failure? {
      return Failure(persistFolder.error);
    }
    testMap.entries := testMap.entries + [RunningTestMapEntry(testSpecId, TestVersion, Name(Queued))];
    return Success(HtpTest(testId, orchestratorConfig, configFolder.value, persistFolder.value,
                           None, None, testSpecId, priority, None, Queued));
  }

  /** `clone_into::<T>`: finds the first registry entry for the test's
      specification id (panicking if there is none), records the new stage
      name there, and re-tags the record; every field is carried over. */
  method CloneInto(t: HtpTest, target: Stage, testMap: RunningTestMap) returns (u: HtpTest)
    requires HasEntry(testMap.entries, t.testSpecId)
    modifies testMap
    ensures u == t.(stage := target)
    ensures testMap.entries == Restage(old(testMap.entries), t.testSpecId, Name(target))
  {
    var k := 0;
    while testMap.entries[k].id != t.testSpecId
      invariant 0 <= k <= FirstWithId(testMap.entries, t.testSpecId)
      decreases |testMap.entries| - k
    {
      k := k + 1;
    }
    testMap.entries := testMap.entries[k := testMap.entries[k].(stage := Name(target))];
    u := t.(stage := target);
  }

  /** `config()`: only post-validation stages have it; panics when absent. */
  function GetConfig(t: HtpTest): (c: Config)
    requires PostValidation(t.stage)
    requires t.config.Some?
    ensures t.config == Some(c)
  {
    t.config.value
  }

  /** `get_test_group()`: the group named by the test's id; panics when missing. */
  function GetTestGroup(t: HtpTest): (g: TestGroup)
    requires PostValidation(t.stage)
    requires t.config.Some?
    requires t.testSpecId.group in t.config.value.tests
    ensures g == t.config.value.tests[t.testSpecId.group]
  {
    GetConfig(t).tests[t.testSpecId.group]
  }

  /** Everything `get_test_spec()` unwraps is present. */
  predicate HasTestSpec(t: HtpTest)
  {
    && PostValidation(t.stage)
    && t.config.Some?
    && t.testSpecId.group in t.config.value.tests
    && Find(t.config.value.tests[t.testSpecId.group].tests, t.testSpecId.name).Some?
  }

  /** `get_test_spec()`: the first test of the group with the id's name. */
  function GetTestSpec(t: HtpTest): (s: TestSpecification)
    requires HasTestSpec(t)
    ensures s.name == t.testSpecId.name
    ensures s in GetTestGroup(t).tests
  {
    Find(GetTestGroup(t).tests, t.testSpecId.name).value
  }

  /** `dependencies()`: only post-validation stages have them; panics when absent. */
  function GetDependencies(t: HtpTest): (ds: seq<Dependency>)
    requires PostValidation(t.stage)
    requires t.dependencies.Some?
    ensures t.dependencies == Some(ds)
  {
    t.dependencies.value
  }

  /** The error `Dependency::new` reports: the first folder that cannot be created. */
  function NewDependencyError(inputCreate: Option<Error>, outputCreate: Option<Error>): Option<Error>
  {
    if inputCreate.Some? then Some(Context("failed to create build input folder", Folder.CreateError(inputCreate.value)))
    else if outputCreate.Some? then Some(Context("failed to create build output folder", Folder.CreateError(outputCreate.value)))
    else None
  }

  /** `Dependency::new`: both build folders, under the fixed version tag. */
  method NewDependency(cfg: OrchestratorConfig, name: string, specification: DependencySpecification,
                       inputCreate: Option<Error>, outputCreate: Option<Error>)
    returns (r: Result<Dependency, Error>)
    ensures r.Success? <==> NewDependencyError(inputCreate, outputCreate).None?
    ensures r.Failure? ==> Some(r.error) == NewDependencyError(inputCreate, outputCreate)
    ensures r.Success? ==>
      var root := cfg.htpFolderRoot;
      r.value == Dependency(name, DependencyVersion, specification,
                            Folder.HtpFolder(Folder.DependencyFolderPath(root, Folder.BuildInput, name, DependencyVersion), Folder.Dependency(Folder.BuildInput)),
                            Folder.HtpFolder(Folder.DependencyFolderPath(root, Folder.BuildOutput, name, DependencyVersion), Folder.Dependency(Folder.BuildOutput)))
  {
    var ver := DependencyVersion;
    var input := Folder.NewDependency(cfg, Folder.BuildInput, name, ver, inputCreate);
    if input.Failure? {
      return Failure(Context("failed to create build input folder", input.error));
    }
    var output := Folder.NewDependency(cfg, Folder.BuildOutput, name, ver, outputCreate);
    if output.Failure? {
      return Failure(Context("failed to create build output folder", output.error));
    }
    return Success(Dependency(name, ver, specification, input.value, output.value));
  }

  /** One mount: the variable that names the in-container path, the host
      folder, and where it appears inside the container. */
  datatype MountMapSet = MountMapSet(envVar: string, hostPath: Path, innerPath: Path)

  datatype EnvironmentMountMap = EnvironmentMountMap(sets: seq<MountMapSet>)

  /** `test_mount_map(root)`. */
  function TestMountMap(t: HtpTest, innerRoot: Path): EnvironmentMountMap
    requires PostValidation(t.stage)
  {
    EnvironmentMountMap([
      MountMapSet("HTP_CONFIG", t.configFolder.path, Join(innerRoot, "config")),
      MountMapSet("HTP_PERSIST", t.persistFolder.path, Join(innerRoot, "persist"))])
  }

  /** The in-container folder of one dependency: `root/dependencies/<name>-<ver>`. */
  function DependencyInnerRoot(dep: Dependency, innerRoot: Path): Path
  {
    Join(Join(innerRoot, "dependencies"), dep.name + "-" + dep.ver)
  }

  /** `Dependency::dependency_mount_map(root)`. */
  function DependencyMountMap(dep: Dependency, innerRoot: Path): EnvironmentMountMap
  {
    var base := DependencyInnerRoot(dep, innerRoot);
    EnvironmentMountMap([
      MountMapSet("HTP_BUILD_INPUT", dep.buildInputFolder.path, Join(base, "input")),
      MountMapSet("HTP_BUILD_OUTPUT", dep.buildOutputFolder.path, Join(base, "output"))])
  }

  /** The test's mounts: its config folder at `root/config`, then its
      persist folder at `root/persist`. */
  lemma TestMountMapLayout(t: HtpTest, innerRoot: Path)
    requires PostValidation(t.stage)
    ensures var m := TestMountMap(t, innerRoot).sets;
            && |m| == 2
            && m[0].envVar == "HTP_CONFIG" && m[0].hostPath == t.configFolder.path
            && m[1].envVar == "HTP_PERSIST" && m[1].hostPath == t.persistFolder.path
            && m[0].innerPath == Path(innerRoot.absolute, innerRoot.parts + [Text("config")])
            && m[1].innerPath == Path(innerRoot.absolute, innerRoot.parts + [Text("persist")])
            && m[0].innerPath != m[1].innerPath
            && ToStr(m[0].innerPath).Some? == Representable(innerRoot)
  {
    JoinRepresentable(innerRoot, "config");
    var m := TestMountMap(t, innerRoot).sets;
    assert m[0].innerPath.parts[|innerRoot.parts|] != m[1].innerPath.parts[|innerRoot.parts|];
  }

  /** A dependency's mounts: its build input then its build output, both in
      `root/dependencies/<name>-<ver>`, under distinct names. */
  lemma DependencyMountMapLayout(dep: Dependency, innerRoot: Path)
    ensures var m := DependencyMountMap(dep, innerRoot).sets;
            var base := innerRoot.parts + [Text("dependencies"), Text(dep.name + "-" + dep.ver)];
            && |m| == 2
            && m[0].envVar == "HTP_BUILD_INPUT" && m[0].hostPath == dep.buildInputFolder.path
            && m[1].envVar == "HTP_BUILD_OUTPUT" && m[1].hostPath == dep.buildOutputFolder.path
            && m[0].innerPath == Path(innerRoot.absolute, base + [Text("input")])
            && m[1].innerPath == Path(innerRoot.absolute, base + [Text("output")])
            && m[0].innerPath != m[1].innerPath
  {
    var m := DependencyMountMap(dep, innerRoot).sets;
    var n := |innerRoot.parts|;
    assert m[0].innerPath.parts[n + 2] != m[1].innerPath.parts[n + 2];
  }

  /** Inside the container no two mounts collide: the test's folders differ
      from every dependency's, and dependencies of different names (with the
      same version tag, and no `/` in the names or the tag) get different
      folders. */
  lemma MountTargetsSeparate(t: HtpTest, a: Dependency, b: Dependency, innerRoot: Path, i: nat, j: nat)
    requires PostValidation(t.stage)
    requires i < 2 && j < 2
    requires a.ver == b.ver
    ensures TestMountMap(t, innerRoot).sets[i].innerPath != DependencyMountMap(a, innerRoot).sets[j].innerPath
    ensures a.name != b.name && SlashFree(a.name) && SlashFree(b.name) && SlashFree(a.ver) ==>
              DependencyMountMap(a, innerRoot).sets[i].innerPath != DependencyMountMap(b, innerRoot).sets[j].innerPath
  {
    var n := |innerRoot.parts|;
    assert |TestMountMap(t, innerRoot).sets[i].innerPath.parts| == n + 1;
    assert |DependencyMountMap(a, innerRoot).sets[j].innerPath.parts| == n + 3;
    if a.name != b.name && DependencyMountMap(a, innerRoot).sets[i].innerPath == DependencyMountMap(b, innerRoot).sets[j].innerPath {
      assert DependencyMountMap(a, innerRoot).sets[i].innerPath.parts[n + 1] == Text(a.name + "-" + a.ver);
      assert DependencyMountMap(b, innerRoot).sets[j].innerPath.parts[n + 1] == Text(b.name + "-" + b.ver);
      Folder.DashSuffixCancels(a.name, b.name, a.ver);
    }
  }

  const InnerPathError := Message("Failed to convert inner path to str")
  const HostPathError := Message("Cannot convert input path to str")
  const InnerMountPathError := Message("cannot convert inner input path to str")

  /** `env_vars`: one `VAR=inner` string per mount, in order; fails when an
      inner path is not representable as a string. */
  function EnvVarsOf(sets: seq<MountMapSet>): (r: Result<seq<string>, Error>)
    ensures r.Success? <==> forall i :: 0 <= i < |sets| ==> Representable(sets[i].innerPath)
    ensures r.Success? ==> |r.value| == |sets|
    ensures r.Success? ==> forall i :: 0 <= i < |sets| ==>
                             r.value[i] == sets[i].envVar + "=" + ToStr(sets[i].innerPath).value
    ensures r.Failure? ==> r.error == InnerPathError
  {
    if sets == [] then Success([])
    else
      var init := sets[..|sets| - 1];
      var last := sets[|sets| - 1];
      assert forall i :: 0 <= i < |init| ==> init[i] == sets[i];
      match EnvVarsOf(init)
      case Failure(e) => Failure(e)
      case Success(vars) =>
        match ToStr(last.innerPath)
        case None => Failure(InnerPathError)
        case Some(inner) => Success(vars + [last.envVar + "=" + inner])
  }

  /** Both paths of a mount are representable. */
  predicate MountRepresentable(s: MountMapSet)
  {
    Representable(s.hostPath) && Representable(s.innerPath)
  }

  /** `mount_points`: one `host:inner` string per mount, in order; fails at
      the first mount with a path that is not representable, naming the host
      path when that one is at fault. */
  function MountPointsOf(sets: seq<MountMapSet>): (r: Result<seq<string>, Error>)
    ensures r.Success? <==> forall i :: 0 <= i < |sets| ==> MountRepresentable(sets[i])
    ensures r.Success? ==> |r.value| == |sets|
    ensures r.Success? ==> forall i :: 0 <= i < |sets| ==>
                             r.value[i] == ToStr(sets[i].hostPath).value + ":" + ToStr(sets[i].innerPath).value
    ensures r.Failure? ==> exists i :: 0 <= i < |sets| && !MountRepresentable(sets[i])
                                       && (forall j :: 0 <= j < i ==> MountRepresentable(sets[j]))
                                       && r.error == (if Representable(sets[i].hostPath) then InnerMountPathError else HostPathError)
  {
    if sets == [] then Success([])
    else
      var init := sets[..|sets| - 1];
      var last := sets[|sets| - 1];
      assert forall i :: 0 <= i < |init| ==> init[i] == sets[i];
      match MountPointsOf(init)
      case Failure(e) => Failure(e)
      case Success(points) =>
        match ToStr(last.hostPath)
        case None => Failure(HostPathError)
        case Some(host) =>
          match ToStr(last.innerPath)
          case None => Failure(InnerMountPathError)
          case Some(inner) => Success(points + [host + ":" + inner])
  }

  /** Once a prefix of the mounts fails, `env_vars` fails with that error. */
  lemma {:induction false} EnvVarsPrefixFailure(sets: seq<MountMapSet>, k: nat)
    requires k <= |sets|
    requires EnvVarsOf(sets[..k]).Failure?
    ensures EnvVarsOf(sets) == EnvVarsOf(sets[..k])
    decreases |sets| - k
  {
    if k == |sets| {
      assert sets[..k] == sets;
    } else {
      var init := sets[..|sets| - 1];
      assert init[..k] == sets[..k];
      EnvVarsPrefixFailure(init, k);
    }
  }

  /** Likewise for `mount_points`. */
  lemma {:induction false} MountPointsPrefixFailure(sets: seq<MountMapSet>, k: nat)
    requires k <= |sets|
    requires MountPointsOf(sets[..k]).Failure?
    ensures MountPointsOf(sets) == MountPointsOf(sets[..k])
    decreases |sets| - k
  {
    if k == |sets| {
      assert sets[..k] == sets;
    } else {
      var init := sets[..|sets| - 1];
      assert init[..k] == sets[..k];
      MountPointsPrefixFailure(init, k);
    }
  }

  /** `EnvironmentMountMap::env_vars`, the loop with early return. */
  method EnvVars(m: EnvironmentMountMap) returns (r: Result<seq<string>, Error>)
    ensures r == EnvVarsOf(m.sets)
  {
    var envVars: seq<string> := [];
    for k := 0 to |m.sets|
      invariant EnvVarsOf(m.sets[..k]) == Success(envVars)
    {
      assert m.sets[..k + 1][..k] == m.sets[..k];
      var inner := ToStr(m.sets[k].innerPath);
      if inner.None? {
        EnvVarsPrefixFailure(m.sets, k + 1);
        return Failure(InnerPathError);
      }
      envVars := envVars + [m.sets[k].envVar + "=" + inner.value];
    }
    assert m.sets[..|m.sets|] == m.sets;
    return Success(envVars);
  }

  /** `EnvironmentMountMap::mount_points`, the loop with early return. */
  method MountPoints(m: EnvironmentMountMap) returns (r: Result<seq<string>, Error>)
    ensures r == MountPointsOf(m.sets)
  {
    var points: seq<string> := [];
    for k := 0 to |m.sets|
      invariant MountPointsOf(m.sets[..k]) == Success(points)
    {
      assert m.sets[..k + 1][..k] == m.sets[..k];
      var host := ToStr(m.sets[k].hostPath);
      if host.None? {
        MountPointsPrefixFailure(m.sets, k + 1);
        return Failure(HostPathError);
      }
      var inner := ToStr(m.sets[k].innerPath);
      if inner.None? {
        MountPointsPrefixFailure(m.sets, k + 1);
        return Failure(InnerMountPathError);
      }
      points := points + [host.value + ":" + inner.value];
    }
    assert m.sets[..|m.sets|] == m.sets;
    return Success(points);
  }
}
