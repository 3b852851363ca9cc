/** The Instance as users write it, with parameters already decoded, and the
    operator's cluster resource as the provider fills it in. */
module Instances {
  import opened Kube
  import Json

  newtype int32 = x: int | -0x8000_0000 <= x < 0x8000_0000

  // internal/common/spec.go
  const PROVIDER := "percona-server-mysql"
  const ENGINE := "engine"
  const ORCHESTRATOR := "orchestrator"
  const TOOLKIT := "toolkit"
  const PROXY := "proxy"
  const HAPROXY := "haproxy"
  const ROUTER := "router"
  const MONITORING := "monitoring"
  const PMM := "pmm"
  const ASYNC := "async"
  const GROUP_REPLICATION := "groupreplication"

  datatype Result<+T> = Ok(value: T) | Err(error: Error) {
    predicate IsFailure() { Err? }
    function PropagateFailure<U>(): Result<U> requires Err? { Err(error) }
    function Extract(): T requires Ok? { value }
  }

  datatype Error =
    | MalformedParameters | MissingEngine | MissingReplicas | NoImage | UnsupportedTopology | UnsupportedType
    | BadReplicas | BadIssuerKind | TwoTlsSources | BadCertificate | TlsSourceChanged
    | BadMonitoring | BadBackup

  // ------------------------------------------------------------ the Instance

  /** The YAML document of the engine component, decoded; blank is an empty map. */
  datatype Settings = BadYaml | Settings(values: map<string, Json.Value>)

  datatype Parameters =
    | NoParameters
    | Malformed
    | Fields(settings: Settings, text: string, monitoringConfig: Option<string>)

  datatype Component = Component(ctype: string, version: string, image: string,
                                 replicas: Option<int32>, parameters: Parameters)

  /** spec.parameters of a Backup or a schedule. */
  datatype BackupParameters = NoBackupParameters | MalformedBackup | BackupType(name: string)

  datatype Schedule = Schedule(name: string, enabled: bool, cron: string, copies: int, parameters: BackupParameters)
  datatype StorageEntry = StorageEntry(storage: string, schedules: seq<Schedule>)
  datatype BackupPlan = BackupPlan(enabled: bool, className: string, storages: seq<StorageEntry>)

  datatype Issuer = Issuer(kind: string, name: string)
  datatype Tls = Tls(certificate: string, issuer: Option<Issuer>)
  datatype TlsInput = NoTls | MalformedTls | TlsInput(tls: Tls)

  datatype Instance = Instance(uid: string, deleting: bool, provider: string, topology: string,
                               components: map<string, Component>, backup: Option<BackupPlan>, tls: TlsInput)

  // ----------------------------------------------------- the operator cluster

  datatype Topology = Async | GroupReplication

  datatype Pod = Pod(size: int32, image: string, configuration: string)

  datatype UnsafeFlags = UnsafeFlags(mysqlSize: bool, orchestrator: bool, orchestratorSize: bool,
                                     proxy: bool, proxySize: bool)

  datatype OpStorage = OpStorage(bucket: string, prefix: string)
  datatype OpSchedule = OpSchedule(name: string, cron: string, storage: string, keep: int, btype: string)
  datatype BackupSpec = BackupSpec(image: string, storages: map<string, OpStorage>, schedules: seq<OpSchedule>)

  datatype PmmSpec = PmmSpec(host: string, image: string, cluster: string)

  /** A component that is switched off is None. */
  datatype ClusterSpec = ClusterSpec(
    pause: bool, secretsName: string, sslSecret: string, issuer: Option<Issuer>,
    topology: Topology, mysql: Pod,
    orchestrator: Option<Pod>, toolkit: Option<string>,
    haproxy: Option<Pod>, router: Option<Pod>,
    unsafe: UnsafeFlags, pmm: Option<PmmSpec>, backup: Option<BackupSpec>)

  // ------------------------------------- what a reconcile looks up elsewhere

  datatype Version = Version(version: string, image: string)
  datatype ComponentVersions = ComponentVersions(default: string, versions: seq<Version>)

  /** The operator's safe sizes (constants of its API package). */
  datatype SafeSizes = SafeSizes(minAsync: int32, minGr: int32, maxGr: int32, minProxy: int32)

  datatype StorageInfo = StorageInfo(s3: bool, credentials: bool, bucket: string)

  datatype MonitoringConfig = MonitoringConfig(pmm: bool, host: Option<string>, credentials: string)

  datatype World = World(
    catalog: map<string, ComponentVersions>,
    mysqlImage: string, backupImage: string, pmmVersion: string,
    sizes: SafeSizes,
    classAccepts: bool, storages: map<string, StorageInfo>,
    monitoring: map<string, MonitoringConfig>,
    secrets: map<string, map<string, string>>)
}
