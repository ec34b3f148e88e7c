/** On-disk layout of the orchestrator's working folders: one folder per
    dependency build input/output and per test config/persist. */
module Folder {
  import opened Wrappers
  import opened Paths
  import opened TestsConfig
  import Configuration

  datatype DependencyFolderType = BuildInput | BuildOutput

  datatype TestFolderType = Config | Persist

  datatype FolderType = Dependency(dependencyType: DependencyFolderType) | Test(testType: TestFolderType)

  /** A created folder: where it is, and what it is for. Both `From`
      conversions into a `PathBuf` yield `path`. */
  datatype HtpFolder = HtpFolder(path: Path, folderType: FolderType)

  function DependencyLeaf(folderType: DependencyFolderType): string
  {
    match folderType
    case BuildInput => "build_input"
    case BuildOutput => "build_output"
  }

  function TestLeaf(folderType: TestFolderType): string
  {
    match folderType
    case Config => "config"
    case Persist => "persist"
  }

  /** `<root>/dependencies/<name>-<uuid>/<build_input|build_output>`. */
  function DependencyFolderPath(root: Path, folderType: DependencyFolderType, depName: string, uuid: string): Path
  {
    Path(root.absolute, root.parts + [Text("dependencies"), Text(depName + "-" + uuid), Text(DependencyLeaf(folderType))])
  }

  /** `<root>/tests/<group>/<name>-<version>/<config|persist>`. */
  function TestFolderPath(root: Path, folderType: TestFolderType, testId: TestSpecificationId, version: string): Path
  {
    Path(root.absolute, root.parts + [Text("tests"), Text(testId.group), Text(testId.name + "-" + version), Text(TestLeaf(folderType))])
  }

  function CreateError(cause: Error): Error
  {
    Context("Cannot create {path}", cause)
  }

  /** The error `copy_from` reports when seeding a folder fails. */
  function CopyError(cause: Error): Error
  {
    Context("Failed to copy from {src} to {self.0}", cause)
  }

  /** `HtpFolder::new_dependency`: builds the path by successive pushes, then
      creates the directory; `createError` is what `create_dir_all` reports. */
  method NewDependency(cfg: Configuration.OrchestratorConfig, folderType: DependencyFolderType,
                       depName: string, uuid: string, createError: Option<Error>)
    returns (r: Result<HtpFolder, Error>)
    ensures r.Success? <==> createError.None?
    ensures r.Success? ==> r.value == HtpFolder(DependencyFolderPath(cfg.htpFolderRoot, folderType, depName, uuid), Dependency(folderType))
    ensures r.Failure? ==> r.error == CreateError(createError.value)
  {
    var path := cfg.htpFolderRoot;
    path := Join(path, "dependencies");
    path := Join(path, depName + "-" + uuid);
    path := Join(path, DependencyLeaf(folderType));
    if createError.Some? {
      return Failure(CreateError(createError.value));
    }
    assert path.parts == cfg.htpFolderRoot.parts + [Text("dependencies"), Text(depName + "-" + uuid), Text(DependencyLeaf(folderType))];
    return Success(HtpFolder(path, Dependency(folderType)));
  }

  /** `HtpFolder::new_test`, built the same way. */
  method NewTest(cfg: Configuration.OrchestratorConfig, folderType: TestFolderType,
                 testId: TestSpecificationId, version: string, createError: Option<Error>)
    returns (r: Result<HtpFolder, Error>)
    ensures r.Success? <==> createError.None?
    ensures r.Success? ==> r.value == HtpFolder(TestFolderPath(cfg.htpFolderRoot, folderType, testId, version), Test(folderType))
    ensures r.Failure? ==> r.error == CreateError(createError.value)
  {
    var path := cfg.htpFolderRoot;
    path := Join(path, "tests");
    path := Join(path, testId.group);
    path := Join(path, testId.name + "-" + version);
    path := Join(path, TestLeaf(folderType));
    if createError.Some? {
      return Failure(CreateError(createError.value));
    }
    assert path.parts == cfg.htpFolderRoot.parts + [Text("tests"), Text(testId.group), Text(testId.name + "-" + version), Text(TestLeaf(folderType))];
    return Success(HtpFolder(path, Test(folderType)));
  }

  /** `<a>-<v>` determines `a` once the suffix `v` is fixed. */
  lemma DashSuffixCancels(a: string, b: string, v: string)
    requires a + "-" + v == b + "-" + v
    ensures a == b
  {
    var s := a + "-" + v;
    assert |a| == |b|;
    assert a == s[..|a|] == b;
  }

  /** The input and output folders of one dependency agree on every component
      but the last, and differ there. */
  lemma DependencyFoldersDifferInLeaf(root: Path, depName: string, uuid: string)
    ensures var i := DependencyFolderPath(root, BuildInput, depName, uuid);
            var o := DependencyFolderPath(root, BuildOutput, depName, uuid);
            && |i.parts| == |o.parts|
            && i.parts[..|i.parts| - 1] == o.parts[..|o.parts| - 1]
            && i.parts[|i.parts| - 1] != o.parts[|o.parts| - 1]
            && i != o
  {
    var i := DependencyFolderPath(root, BuildInput, depName, uuid);
    var o := DependencyFolderPath(root, BuildOutput, depName, uuid);
    assert i.parts[..|i.parts| - 1] == root.parts + [Text("dependencies"), Text(depName + "-" + uuid)];
    assert o.parts[..|o.parts| - 1] == root.parts + [Text("dependencies"), Text(depName + "-" + uuid)];
  }

  /** Likewise for a test's config and persist folders. */
  lemma TestFoldersDifferInLeaf(root: Path, testId: TestSpecificationId, version: string)
    ensures var c := TestFolderPath(root, Config, testId, version);
            var p := TestFolderPath(root, Persist, testId, version);
            && |c.parts| == |p.parts|
            && c.parts[..|c.parts| - 1] == p.parts[..|p.parts| - 1]
            && c.parts[|c.parts| - 1] != p.parts[|p.parts| - 1]
            && c != p
  {
    var c := TestFolderPath(root, Config, testId, version);
    var p := TestFolderPath(root, Persist, testId, version);
    var common := root.parts + [Text("tests"), Text(testId.group), Text(testId.name + "-" + version)];
    assert c.parts[..|c.parts| - 1] == common;
    assert p.parts[..|p.parts| - 1] == common;
  }

  /** With the version tag fixed (dependencies are created with one constant
      tag), dependencies of different names without `/` never share a folder. */
  lemma DependencyFoldersSeparateNames(root: Path, a: DependencyFolderType, b: DependencyFolderType,
                                       nameA: string, nameB: string, uuid: string)
    requires SlashFree(nameA) && SlashFree(nameB) && SlashFree(uuid)
    requires nameA != nameB
    ensures DependencyFolderPath(root, a, nameA, uuid) != DependencyFolderPath(root, b, nameB, uuid)
  {
    var n := |root.parts|;
    if DependencyFolderPath(root, a, nameA, uuid) == DependencyFolderPath(root, b, nameB, uuid) {
      assert DependencyFolderPath(root, a, nameA, uuid).parts[n + 1] == Text(nameA + "-" + uuid);
      assert DependencyFolderPath(root, b, nameB, uuid).parts[n + 1] == Text(nameB + "-" + uuid);
      DashSuffixCancels(nameA, nameB, uuid);
    }
  }

  /** With the version fixed, two different tests never share a folder, as
      long as each group name is one plain component and no name holds `/`. */
  lemma TestFoldersSeparateTests(root: Path, a: TestFolderType, b: TestFolderType,
                                 idA: TestSpecificationId, idB: TestSpecificationId, version: string)
    requires PlainComponent(idA.group) && PlainComponent(idB.group)
    requires SlashFree(idA.name) && SlashFree(idB.name) && SlashFree(version)
    requires idA != idB
    ensures TestFolderPath(root, a, idA, version) != TestFolderPath(root, b, idB, version)
  {
    var n := |root.parts|;
    var pa := TestFolderPath(root, a, idA, version);
    var pb := TestFolderPath(root, b, idB, version);
    if pa == pb {
      assert pa.parts[n + 1] == Text(idA.group) && pb.parts[n + 1] == Text(idB.group);
      assert pa.parts[n + 2] == Text(idA.name + "-" + version) && pb.parts[n + 2] == Text(idB.name + "-" + version);
      DashSuffixCancels(idA.name, idB.name, version);
    }
  }

  /** Dependency folders and test folders under one root never coincide. */
  lemma DependencyAndTestFoldersDisjoint(root: Path, d: DependencyFolderType, depName: string, uuid: string,
                                         t: TestFolderType, testId: TestSpecificationId, version: string)
    ensures DependencyFolderPath(root, d, depName, uuid) != TestFolderPath(root, t, testId, version)
  {
    var n := |root.parts|;
    assert DependencyFolderPath(root, d, depName, uuid).parts[n] == Text("dependencies");
    assert TestFolderPath(root, t, testId, version).parts[n] == Text("tests");
  }
}
