/** The configuration snapshot a test carries: the parts of `Config` and
    `OrchestratorConfig` the lifecycle reads. */
module Configuration {
  import opened Paths
  import TestsConfig

  datatype OrchestratorConfig = OrchestratorConfig(
    htpFolderRoot: Path,
    persistTestRuns: bool,
    hostAddr: string,
    lokiAddr: string)

  datatype DependencySpecification = DependencySpecification(
    url: string,
    buildOn: string,
    buildScript: string,
    installScript: string)

  /** A container image and the path inside it under which the orchestrator
      mounts its folders. */
  datatype DockerSpec = DockerSpec(image: string, htpRoot: Path)

  datatype DeviceClassification = Real | Docker(spec: DockerSpec)

  datatype DeviceType = DeviceType(architecture: string, os: string, classification: DeviceClassification)

  /** The parsed catalogue; apparatuses and devices are not read by the lifecycle. */
  datatype Config = Config(
    dependencies: map<string, DependencySpecification>,
    deviceTypes: map<string, DeviceType>,
    tests: TestsConfig.TestMap)
}
