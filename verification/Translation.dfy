/** What Validate accepts and what Sync builds: the Instance-to-cluster
    translation as functions of the Instance and of what it looks up. */
module Translation {
  import opened Kube
  import opened Instances
  import Json
  import Config

  function TopologyOf(inst: Instance): string {
    if inst.topology != "" then inst.topology else GROUP_REPLICATION
  }

  function ComponentOf(inst: Instance, name: string): Option<Component> {
    if name in inst.components then Some(inst.components[name]) else None
  }

  // ------------------------------------------------------------------- sizes

  predicate MysqlSizeUnsafe(w: SafeSizes, topology: string, size: int32) {
    if topology == ASYNC then size < w.minAsync
    else if topology == GROUP_REPLICATION then size < w.minGr || size >= w.maxGr || size % 2 == 0
    else false
  }

  predicate OrchestratorSizeUnsafe(w: SafeSizes, size: int32) {
    size < w.minGr || size % 2 == 0
  }

  predicate ProxySizeUnsafe(w: SafeSizes, proxyType: string, size: int32) {
    proxyType == ROUTER && size < w.minProxy
  }

  // ------------------------------------------------------------------ images

  /** The first version in the list that the test accepts. */
  function FirstVersion(vs: seq<Version>, accepts: Version -> bool): (r: Option<Version>)
    ensures r.Some? ==>
              exists i :: 0 <= i < |vs| && vs[i] == r.value && accepts(vs[i])
                          && forall j :: 0 <= j < i ==> !accepts(vs[j])
    ensures r.None? ==> forall i :: 0 <= i < |vs| ==> !accepts(vs[i])
  {
    if vs == [] then None
    else if accepts(vs[0]) then Some(vs[0])
    else FirstVersion(vs[1..], accepts)
  }

  function ImageFor(catalog: map<string, ComponentVersions>, ctype: string, version: string, override: string): string {
    if override != "" then override
    else if ctype !in catalog then ""
    else
      var ct := catalog[ctype];
      var exact := FirstVersion(ct.versions, (v: Version) => v.version == version);
      if version != "" && exact.Some? then exact.value.image
      else
        var default := FirstVersion(ct.versions, (v: Version) => v.version == ct.default && v.image != "");
        if ct.default != "" && default.Some? then default.value.image
        else match FirstVersion(ct.versions, (v: Version) => v.image != "")
          case Some(v) => v.image
          case None => ""
  }

  /** vs[i] is the first entry of the version asked for. */
  predicate FirstMatch(vs: seq<Version>, version: string, i: int) {
    0 <= i < |vs| && vs[i].version == version && forall j :: 0 <= j < i ==> vs[j].version != version
  }

  /** When no image is found: a version that is listed decides alone, even without
      an image; otherwise any image in the catalog will do. */
  lemma ImageMissing(catalog: map<string, ComponentVersions>, ctype: string, version: string, override: string)
    ensures ImageFor(catalog, ctype, version, override) == "" <==>
              && override == ""
              && (ctype in catalog ==>
                    var vs := catalog[ctype].versions;
                    if version != "" && exists i :: FirstMatch(vs, version, i)
                    then exists i :: FirstMatch(vs, version, i) && vs[i].image == ""
                    else forall i :: 0 <= i < |vs| ==> vs[i].image == "")
  {
    if override == "" && ctype in catalog {
      var vs := catalog[ctype].versions;
      var exact := FirstVersion(vs, (v: Version) => v.version == version);
      if exact.Some? {
        var i :| FirstMatch(vs, version, i) && vs[i] == exact.value;
        assert forall j :: FirstMatch(vs, version, j) ==> j == i;
      }
    }
  }

  /** vs[i] is the first entry of the default version that has an image. */
  predicate FirstDefault(vs: seq<Version>, default: string, i: int) {
    && 0 <= i < |vs| && vs[i].version == default && vs[i].image != ""
    && forall j :: 0 <= j < i ==> !(vs[j].version == default && vs[j].image != "")
  }

  /** vs[i] is the first entry that has an image. */
  predicate FirstImage(vs: seq<Version>, i: int) {
    0 <= i < |vs| && vs[i].image != "" && forall j :: 0 <= j < i ==> vs[j].image == ""
  }

  /** The image of a component: an override wins; then the version asked for, if it is
      listed; then the default version; then any image there is. */
  ghost predicate Chosen(catalog: map<string, ComponentVersions>, ctype: string, version: string, override: string,
                         image: string)
  {
    if override != "" then image == override
    else if ctype !in catalog then image == ""
    else
      var vs, default := catalog[ctype].versions, catalog[ctype].default;
      if version != "" && exists i :: FirstMatch(vs, version, i)
      then exists i :: FirstMatch(vs, version, i) && image == vs[i].image
      else if default != "" && exists i :: FirstDefault(vs, default, i)
      then exists i :: FirstDefault(vs, default, i) && image == vs[i].image
      else if exists i :: FirstImage(vs, i)
      then exists i :: FirstImage(vs, i) && image == vs[i].image
      else image == ""
  }

  lemma ImageChosen(catalog: map<string, ComponentVersions>, ctype: string, version: string, override: string)
    ensures Chosen(catalog, ctype, version, override, ImageFor(catalog, ctype, version, override))
  {
    if override == "" && ctype in catalog {
      var vs, default := catalog[ctype].versions, catalog[ctype].default;
      SearchMatch(vs, version);
      SearchDefault(vs, default);
      SearchImage(vs);
      hide FirstVersion, FirstMatch, FirstDefault, FirstImage;
    }
  }

  /** Only one image fits. */
  lemma ChosenOnce(catalog: map<string, ComponentVersions>, ctype: string, version: string, override: string,
                   a: string, b: string)
    requires Chosen(catalog, ctype, version, override, a) && Chosen(catalog, ctype, version, override, b)
    ensures a == b
  {
    if override == "" && ctype in catalog {
      var vs, default := catalog[ctype].versions, catalog[ctype].default;
      assert forall i, j :: FirstMatch(vs, version, i) && FirstMatch(vs, version, j) ==> i == j;
      assert forall i, j :: FirstDefault(vs, default, i) && FirstDefault(vs, default, j) ==> i == j;
      assert forall i, j :: FirstImage(vs, i) && FirstImage(vs, j) ==> i == j;
      hide FirstMatch, FirstDefault, FirstImage;
    }
  }

  lemma SearchMatch(vs: seq<Version>, version: string)
    ensures var r := FirstVersion(vs, (v: Version) => v.version == version);
            match r
            case None => forall i :: !FirstMatch(vs, version, i)
            case Some(v) => exists i :: FirstMatch(vs, version, i) && v == vs[i]
  {
    hide FirstVersion;
    var r := FirstVersion(vs, (v: Version) => v.version == version);
    if r.Some? {
      var i :| 0 <= i < |vs| && vs[i] == r.value && vs[i].version == version
               && forall j :: 0 <= j < i ==> vs[j].version != version;
      assert FirstMatch(vs, version, i);
    }
  }

  lemma SearchDefault(vs: seq<Version>, default: string)
    ensures var r := FirstVersion(vs, (v: Version) => v.version == default && v.image != "");
            match r
            case None => forall i :: !FirstDefault(vs, default, i)
            case Some(v) => exists i :: FirstDefault(vs, default, i) && v == vs[i]
  {
    hide FirstVersion;
    var r := FirstVersion(vs, (v: Version) => v.version == default && v.image != "");
    if r.Some? {
      var i :| 0 <= i < |vs| && vs[i] == r.value && vs[i].version == default && vs[i].image != ""
               && forall j :: 0 <= j < i ==> !(vs[j].version == default && vs[j].image != "");
      assert FirstDefault(vs, default, i);
    }
  }

  lemma SearchImage(vs: seq<Version>)
    ensures var r := FirstVersion(vs, (v: Version) => v.image != "");
            match r
            case None => forall i :: !FirstImage(vs, i)
            case Some(v) => exists i :: FirstImage(vs, i) && v == vs[i]
  {
    hide FirstVersion;
    var r := FirstVersion(vs, (v: Version) => v.image != "");
    if r.Some? {
      var i :| 0 <= i < |vs| && vs[i] == r.value && vs[i].image != "" && forall j :: 0 <= j < i ==> vs[j].image == "";
      assert FirstImage(vs, i);
    }
  }

  function PodOf(c: Component, image: string, defaultSize: int32): Pod {
    Pod(if c.replicas.Some? then c.replicas.value else defaultSize, image, "")
  }

  // --------------------------------------------------------------------- TLS

  const ISSUER := "Issuer"
  const CLUSTER_ISSUER := "ClusterIssuer"
  const CERTIFICATE_KEYS := ["tls.crt", "tls.key", "ca.crt"]

  /** An issuer without a name is no issuer; without a kind it is an Issuer. */
  function TlsParameters(input: TlsInput): Result<Tls> {
    match input
    case NoTls => Ok(Tls("", None))
    case MalformedTls => Err(MalformedParameters)
    case TlsInput(tls) =>
      if tls.issuer.None? || tls.issuer.value.name == "" then Ok(tls.(issuer := None))
      else if tls.issuer.value.kind == "" then Ok(tls.(issuer := Some(tls.issuer.value.(kind := ISSUER))))
      else Ok(tls)
  }

  function CertificateSecret(name: string, tls: Tls): string {
    if tls.certificate != "" then tls.certificate else name + "-ssl"
  }

  /** The string form in which issuers are compared. */
  function IssuerText(issuer: Option<Issuer>): string {
    if issuer.None? then "/" else issuer.value.kind + "/" + issuer.value.name
  }

  predicate CertificateComplete(secrets: map<string, map<string, string>>, name: string) {
    name in secrets && forall i :: 0 <= i < |CERTIFICATE_KEYS| ==>
      CERTIFICATE_KEYS[i] in secrets[name] && secrets[name][CERTIFICATE_KEYS[i]] != ""
  }

  function ValidateTlsChange(name: string, tls: Tls, current: Option<ClusterSpec>): Option<Error> {
    if current.None? then None
    else
      var c := current.value;
      if c.sslSecret != "" && c.sslSecret != CertificateSecret(name, tls) then Some(TlsSourceChanged)
      else if IssuerText(c.issuer) != IssuerText(tls.issuer) then Some(TlsSourceChanged)
      else None
  }

  function ValidateTls(name: string, inst: Instance, current: Option<ClusterSpec>, w: World): Option<Error> {
    match TlsParameters(inst.tls)
    case Err(e) => Some(e)
    case Ok(tls) =>
      if tls.issuer.Some? && tls.issuer.value.kind != ISSUER && tls.issuer.value.kind != CLUSTER_ISSUER then
        Some(BadIssuerKind)
      else if tls.certificate != "" && tls.issuer.Some? then Some(TwoTlsSources)
      else if tls.certificate != "" && !CertificateComplete(w.secrets, tls.certificate) then Some(BadCertificate)
      else ValidateTlsChange(name, tls, current)
  }

  // ------------------------------------------------------ orchestrator, proxy

  function ValidateOrchestrator(inst: Instance): Option<Error> {
    if TopologyOf(inst) == GROUP_REPLICATION || ORCHESTRATOR !in inst.components then None
    else
      var orch := inst.components[ORCHESTRATOR];
      if orch.ctype != "" && orch.ctype != ORCHESTRATOR then Some(UnsupportedType)
      else if orch.replicas.Some? && orch.replicas.value < 1 then Some(BadReplicas)
      else None
  }

  function WithToolkit(spec: ClusterSpec, w: World, topology: string): Result<ClusterSpec> {
    if topology != ASYNC || spec.unsafe.orchestrator then Ok(spec.(toolkit := None))
    else
      var image := ImageFor(w.catalog, TOOLKIT, "", "");
      if image == "" then Err(NoImage) else Ok(spec.(toolkit := Some(image)))
  }

  const DEFAULT_ORCHESTRATOR_SIZE: int32 := 3

  function WithOrchestrator(spec: ClusterSpec, inst: Instance, w: World): Result<ClusterSpec> {
    var topology := TopologyOf(inst);
    if topology == GROUP_REPLICATION then
      Ok(spec.(orchestrator := None, toolkit := None, unsafe := spec.unsafe.(orchestrator := false)))
    else match ComponentOf(inst, ORCHESTRATOR)
      case None =>
        WithToolkit(spec.(orchestrator := None,
                          unsafe := spec.unsafe.(orchestrator := topology == ASYNC || spec.unsafe.orchestrator)),
                    w, topology)
      case Some(orch) =>
        var image := ImageFor(w.catalog, ORCHESTRATOR, orch.version, orch.image);
        if image == "" then Err(NoImage)
        else
          var pod := PodOf(orch, image, DEFAULT_ORCHESTRATOR_SIZE);
          WithToolkit(spec.(orchestrator := Some(pod),
                            unsafe := spec.unsafe.(orchestrator := false,
                                                   orchestratorSize := OrchestratorSizeUnsafe(w.sizes, pod.size))),
                      w, topology)
  }

  function ProxyTypeOf(c: Component, topology: string): string {
    if c.ctype != "" then c.ctype else if topology == GROUP_REPLICATION then ROUTER else HAPROXY
  }

  function ValidateProxy(inst: Instance): Option<Error> {
    if PROXY !in inst.components then None
    else
      var proxy := inst.components[PROXY];
      var proxyType := ProxyTypeOf(proxy, TopologyOf(inst));
      if proxyType != HAPROXY && proxyType != ROUTER then Some(UnsupportedType)
      else if TopologyOf(inst) == ASYNC && proxyType != HAPROXY then Some(UnsupportedType)
      else if proxy.replicas.Some? && proxy.replicas.value < 1 then Some(BadReplicas)
      else None
  }

  const DEFAULT_PROXY_SIZE: int32 := 2

  function WithProxy(spec: ClusterSpec, inst: Instance, w: World): Result<ClusterSpec> {
    var topology := TopologyOf(inst);
    match ComponentOf(inst, PROXY)
    case None =>
      Ok(spec.(haproxy := None, router := None,
               unsafe := spec.unsafe.(
                 proxy := topology == ASYNC || topology == GROUP_REPLICATION || spec.unsafe.proxy)))
    case Some(proxy) =>
      var proxyType := ProxyTypeOf(proxy, topology);
      var image := ImageFor(w.catalog, proxyType, proxy.version, proxy.image);
      if image == "" then Err(NoImage)
      else if proxy.parameters.Malformed? then Err(MalformedParameters)
      else
        var text := if proxy.parameters.Fields? then proxy.parameters.text else "";
        var pod := PodOf(proxy, image, DEFAULT_PROXY_SIZE).(configuration := text);
        var flags := spec.unsafe.(proxy := false, proxySize := ProxySizeUnsafe(w.sizes, proxyType, pod.size));
        if proxyType == HAPROXY then Ok(spec.(haproxy := Some(pod), router := None, unsafe := flags))
        else if proxyType == ROUTER then Ok(spec.(router := Some(pod), haproxy := None, unsafe := flags))
        else Err(UnsupportedType)
  }

  // -------------------------------------------------------------- monitoring

  const API_KEY := "apiKey"

  /** The MonitoringConfig a component names; empty when it names none. */
  function MonitoringConfigName(c: Component): Result<string> {
    match c.parameters
    case NoParameters => Ok("")
    case Malformed => Err(MalformedParameters)
    case Fields(_, _, config) => Ok(if config.Some? then config.value else "")
  }

  function WithMonitoring(spec: ClusterSpec, name: string, inst: Instance, w: World): Result<ClusterSpec> {
    if MONITORING !in inst.components then Ok(spec.(pmm := None))
    else
      var c := inst.components[MONITORING];
      if c.ctype != "" && c.ctype != PMM then Err(UnsupportedType)
      else
        var configName :- MonitoringConfigName(c);
        if configName == "" then Ok(spec.(pmm := None))
        else if configName !in w.monitoring then Err(BadMonitoring)
        else
          var config := w.monitoring[configName];
          var image := ImageFor(w.catalog, PMM, if c.version != "" then c.version else w.pmmVersion, c.image);
          if !config.pmm || config.credentials == "" || config.host.None? then Err(BadMonitoring)
          else if image == "" then Err(NoImage)
          else if config.credentials !in w.secrets || API_KEY !in w.secrets[config.credentials]
               || w.secrets[config.credentials][API_KEY] == "" then Err(BadMonitoring)
          else Ok(spec.(pmm := Some(PmmSpec(config.host.value, image, name))))
  }

  // ----------------------------------------------------------------- backups

  const FULL := "full"
  const INCREMENTAL := "incremental"

  function ResolveBackupType(p: BackupParameters): (r: Option<string>)
    ensures r.None? <==>
              p.MalformedBackup? || (p.BackupType? && p.name != "" && p.name != FULL && p.name != INCREMENTAL)
    ensures r.Some? ==> r.value == if p.BackupType? && p.name == INCREMENTAL then INCREMENTAL else FULL
  {
    match p
    case NoBackupParameters => Some(FULL)
    case MalformedBackup => None
    case BackupType(t) =>
      if t == "" then Some(FULL) else if t == FULL || t == INCREMENTAL then Some(t) else None
  }

  function TrimSlashes(s: string): string
    decreases |s|
  {
    if s == "" then ""
    else if s[0] == '/' then TrimSlashes(s[1..])
    else if s[|s| - 1] == '/' then TrimSlashes(s[..|s| - 1])
    else s
  }

  /** The enabled schedules of one storage entry, in order. */
  function EnabledSchedules(storage: string, ss: seq<Schedule>): Option<seq<OpSchedule>> {
    if ss == [] then Some([])
    else if !ss[0].enabled then EnabledSchedules(storage, ss[1..])
    else match ResolveBackupType(ss[0].parameters)
      case None => None
      case Some(t) =>
        match EnabledSchedules(storage, ss[1..])
        case None => None
        case Some(rest) => Some([OpSchedule(ss[0].name, ss[0].cron, storage, ss[0].copies, t)] + rest)
  }

  predicate StorageUsable(w: World, name: string) {
    name != "" && name in w.storages && w.storages[name].s3 && w.storages[name].credentials
  }

  /** Registers the entries one after another on top of what is there already. */
  function RegisterStorages(spec: BackupSpec, entries: seq<StorageEntry>, uid: string, w: World): Option<BackupSpec>
    decreases |entries|
  {
    if entries == [] then Some(spec)
    else if !StorageUsable(w, entries[0].storage) then None
    else match EnabledSchedules(entries[0].storage, entries[0].schedules)
      case None => None
      case Some(schedules) =>
        var storage := OpStorage(TrimSlashes(w.storages[entries[0].storage].bucket), uid);
        RegisterStorages(spec.(storages := spec.storages[entries[0].storage := storage],
                               schedules := spec.schedules + schedules), entries[1..], uid, w)
  }

  function WithBackup(spec: ClusterSpec, inst: Instance, w: World): Result<ClusterSpec> {
    if inst.backup.None? || !inst.backup.value.enabled then Ok(spec.(backup := None))
    else if !w.classAccepts || inst.backup.value.storages == [] || w.backupImage == "" then Err(BadBackup)
    else match RegisterStorages(BackupSpec(w.backupImage, map[], []), inst.backup.value.storages, inst.uid, w)
      case None => Err(BadBackup)
      case Some(b) => Ok(spec.(backup := Some(b)))
  }

  // ------------------------------------------------------- Validate and Sync

  function Validate(name: string, inst: Instance, current: Option<ClusterSpec>, w: World): Option<Error> {
    if ValidateOrchestrator(inst).Some? then ValidateOrchestrator(inst)
    else if ValidateProxy(inst).Some? then ValidateProxy(inst)
    else ValidateTls(name, inst, current, w)
  }

  function EngineConfiguration(engine: Component): Result<string> {
    match engine.parameters
    case NoParameters => Ok("")
    case Malformed => Err(MalformedParameters)
    case Fields(BadYaml, _, _) => Err(MalformedParameters)
    case Fields(Settings(m), _, _) => Ok(if m == map[] then "" else Config.Render(m))
  }

  /** The cluster as far as TLS and the engine are concerned. */
  function EngineCluster(name: string, inst: Instance, w: World): Result<ClusterSpec> {
    if ENGINE !in inst.components then Err(MissingEngine)
    else
      var engine := inst.components[ENGINE];
      var tls :- TlsParameters(inst.tls);
      var image := if engine.image != "" then engine.image else w.mysqlImage;
      if image == "" then Err(NoImage)
      else if engine.replicas.None? then Err(MissingReplicas)
      else
        var configuration :- EngineConfiguration(engine);
        var topology := TopologyOf(inst);
        if topology != ASYNC && topology != GROUP_REPLICATION then Err(UnsupportedTopology)
        else
          var size := engine.replicas.value;
          Ok(ClusterSpec(false, name + "-secrets", CertificateSecret(name, tls), tls.issuer,
                         if topology == ASYNC then Async else GroupReplication,
                         Pod(size, image, configuration), None, None, None, None,
                         UnsafeFlags(MysqlSizeUnsafe(w.sizes, topology, size), false, false, false, false),
                         None, None))
  }

  /** The cluster that Sync applies. */
  function BuildCluster(name: string, inst: Instance, w: World): Result<ClusterSpec> {
    var c0 :- EngineCluster(name, inst, w);
    var c1 :- WithOrchestrator(c0, inst, w);
    var c2 :- WithProxy(c1, inst, w);
    var c3 :- WithMonitoring(c2, name, inst, w);
    WithBackup(c3, inst, w)
  }
}
