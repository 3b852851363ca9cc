/** Sync's builders as the provider runs them: step by step on one cluster object.
    Every step is proved against its function in module Translation. */
module Builder {
  import opened Kube
  import opened Instances
  import T = Translation
  import Json
  import Config
  import M = Monitoring

  /** The parameters of the engine hold decoded YAML. */
  predicate Decoded(inst: Instance) {
    ENGINE in inst.components && inst.components[ENGINE].parameters.Fields?
      && inst.components[ENGINE].parameters.settings.Settings? ==>
    Json.WellFormed(Json.Obj(inst.components[ENGINE].parameters.settings.values))
  }

  /** imageForComponentType: three searches through the catalog, one after another. */
  method ImageForComponentType(catalog: map<string, ComponentVersions>, ctype: string, version: string,
                               override: string)
    returns (image: string)
    ensures image == T.ImageFor(catalog, ctype, version, override)
  {
    if override != "" { return override; }
    if ctype !in catalog { return ""; }
    var ct := catalog[ctype];
    if version != "" {
      for i := 0 to |ct.versions|
        invariant forall j :: 0 <= j < i ==> ct.versions[j].version != version
      {
        if ct.versions[i].version == version { return ct.versions[i].image; }
      }
    }
    if ct.default != "" {
      for i := 0 to |ct.versions|
        invariant forall j :: 0 <= j < i ==> !(ct.versions[j].version == ct.default && ct.versions[j].image != "")
      {
        if ct.versions[i].version == ct.default && ct.versions[i].image != "" { return ct.versions[i].image; }
      }
    }
    for i := 0 to |ct.versions|
      invariant forall j :: 0 <= j < i ==> ct.versions[j].image == ""
    {
      if ct.versions[i].image != "" { return ct.versions[i].image; }
    }
    image := "";
  }

  class PerconaServerMySQL {
    var pause: bool
    var secretsName: string
    var sslSecret: string
    var issuer: Option<Issuer>
    var topology: Topology
    var mysql: Pod
    var orchestrator: Option<Pod>
    var toolkit: Option<string>
    var haproxy: Option<Pod>
    var router: Option<Pod>
    var unsafe: UnsafeFlags
    var pmm: Option<PmmSpec>
    var backup: Option<BackupSpec>

    function Spec(): ClusterSpec
      reads this
    {
      ClusterSpec(pause, secretsName, sslSecret, issuer, topology, mysql, orchestrator, toolkit, haproxy, router,
                  unsafe, pmm, backup)
    }

    constructor (name: string)
      ensures Spec() == ClusterSpec(false, name + "-secrets", "", None, Async, Pod(0, "", ""), None, None, None, None,
                                    UnsafeFlags(false, false, false, false, false), None, None)
    {
      pause, secretsName, sslSecret, issuer := false, name + "-secrets", "", None;
      topology, mysql := Async, Pod(0, "", "");
      orchestrator, toolkit, haproxy, router := None, None, None, None;
      unsafe := UnsafeFlags(false, false, false, false, false);
      pmm, backup := None, None;
    }

    method ConfigureTls(name: string, tls: Tls)
      modifies this
      ensures Spec() == old(Spec()).(sslSecret := T.CertificateSecret(name, tls),
                                     issuer := if tls.issuer.Some? then tls.issuer else old(issuer))
    {
      sslSecret := T.CertificateSecret(name, tls);
      if tls.issuer.Some? { issuer := tls.issuer; }
    }

    method ApplyEngineConfiguration(engine: Component) returns (err: Option<Error>)
      requires engine.parameters.Fields? && engine.parameters.settings.Settings? ==>
                 Json.WellFormed(Json.Obj(engine.parameters.settings.values))
      modifies this
      ensures match T.EngineConfiguration(engine)
              case Ok(text) => err.None? && Spec() == old(Spec()).(mysql := old(mysql).(configuration := text))
              case Err(e) => err == Some(e) && Spec() == old(Spec())
    {
      err := None;
      match engine.parameters {
        case NoParameters => mysql := mysql.(configuration := "");
        case Malformed => err := Some(MalformedParameters);
        case Fields(BadYaml, _, _) => err := Some(MalformedParameters);
        case Fields(Settings(m), _, _) =>
          if m == map[] {
            mysql := mysql.(configuration := "");
          } else {
            var rendered := Config.RenderMySQLConfiguration(m);
            mysql := mysql.(configuration := rendered.value);
          }
      }
    }

    method ApplyToolkit(w: World, topo: string) returns (err: Option<Error>)
      modifies this
      ensures match T.WithToolkit(old(Spec()), w, topo)
              case Ok(c) => err.None? && Spec() == c
              case Err(e) => err == Some(e) && Spec() == old(Spec())
    {
      err := None;
      if topo != ASYNC || unsafe.orchestrator {
        toolkit := None;
      } else {
        var image := ImageForComponentType(w.catalog, TOOLKIT, "", "");
        if image == "" { return Some(NoImage); }
        toolkit := Some(image);
      }
    }

    method ApplyOrchestrator(inst: Instance, w: World) returns (err: Option<Error>)
      modifies this
      ensures match T.WithOrchestrator(old(Spec()), inst, w)
              case Ok(c) => err.None? && Spec() == c
              case Err(e) => err == Some(e)
    {
      var topo := T.TopologyOf(inst);
      if topo == GROUP_REPLICATION {
        orchestrator, toolkit := None, None;
        unsafe := unsafe.(orchestrator := false);
        return None;
      }
      if ORCHESTRATOR !in inst.components {
        orchestrator := None;
        if topo == ASYNC { unsafe := unsafe.(orchestrator := true); }
        err := ApplyToolkit(w, topo);
        return;
      }
      var orch := inst.components[ORCHESTRATOR];
      var image := ImageForComponentType(w.catalog, ORCHESTRATOR, orch.version, orch.image);
      if image == "" { return Some(NoImage); }
      var pod := T.PodOf(orch, image, T.DEFAULT_ORCHESTRATOR_SIZE);
      orchestrator := Some(pod);
      unsafe := unsafe.(orchestrator := false, orchestratorSize := T.OrchestratorSizeUnsafe(w.sizes, pod.size));
      err := ApplyToolkit(w, topo);
    }

    method ApplyProxy(inst: Instance, w: World) returns (err: Option<Error>)
      modifies this
      ensures match T.WithProxy(old(Spec()), inst, w)
              case Ok(c) => err.None? && Spec() == c
              case Err(e) => err == Some(e)
    {
      var topo := T.TopologyOf(inst);
      if PROXY !in inst.components {
        haproxy, router := None, None;
        if topo == ASYNC || topo == GROUP_REPLICATION { unsafe := unsafe.(proxy := true); }
        return None;
      }
      var proxy := inst.components[PROXY];
      var proxyType := T.ProxyTypeOf(proxy, topo);
      var image := ImageForComponentType(w.catalog, proxyType, proxy.version, proxy.image);
      if image == "" { return Some(NoImage); }
      var pod := T.PodOf(proxy, image, T.DEFAULT_PROXY_SIZE);
      if proxy.parameters.Malformed? { return Some(MalformedParameters); }
      pod := pod.(configuration := if proxy.parameters.Fields? then proxy.parameters.text else "");
      unsafe := unsafe.(proxy := false);
      if proxyType == HAPROXY {
        haproxy, router := Some(pod), None;
      } else if proxyType == ROUTER {
        router, haproxy := Some(pod), None;
      } else {
        return Some(UnsupportedType);
      }
      unsafe := unsafe.(proxySize := T.ProxySizeUnsafe(w.sizes, proxyType, pod.size));
      err := None;
    }

    /** Shares the token among the secrets before PMM is switched on. With API calls
        that do not fail the outcome is the translation's. */
    method ApplyMonitoring(name: string, inst: Instance, w: World, secrets: M.Secrets) returns (err: Option<Error>)
      requires w.secrets == secrets.data
      modifies this, secrets
      ensures match T.WithMonitoring(old(Spec()), name, inst, w)
              case Ok(c) => if err.None? then Spec() == c else err == Some(BadMonitoring) && old(secrets.calls) < 5
              case Err(e) => err == Some(e)
      ensures err.None? ==>
                if pmm.None? then secrets.data == old(secrets.data)
                else
                  var key := M.SharedKey(inst, w);
                  key.Some? && M.Agreed(w.secrets, secrets.data, M.TokenSecrets(name, old(secretsName)), key.value)
    {
      if MONITORING !in inst.components {
        pmm := None;
        return None;
      }
      var c := inst.components[MONITORING];
      if c.ctype != "" && c.ctype != PMM { return Some(UnsupportedType); }
      var configName := T.MonitoringConfigName(c);
      if configName.Err? { return Some(configName.error); }
      if configName.value == "" {
        pmm := None;
        return None;
      }
      if configName.value !in w.monitoring { return Some(BadMonitoring); }
      var config := w.monitoring[configName.value];
      if !config.pmm || config.credentials == "" || config.host.None? { return Some(BadMonitoring); }
      var version := if c.version != "" then c.version else w.pmmVersion;
      var image := ImageForComponentType(w.catalog, PMM, version, c.image);
      if image == "" { return Some(NoImage); }
      var ok := secrets.SyncCredentials(config.credentials, M.TokenSecrets(name, secretsName));
      if !ok { return Some(BadMonitoring); }
      pmm := Some(PmmSpec(config.host.value, image, name));
      err := None;
    }

    /** The nested loops over storages and their schedules. The cluster is written
        once, at the end, so an error leaves it as it was. */
    method ApplyBackupSettings(inst: Instance, w: World) returns (err: Option<Error>)
      modifies this
      ensures match T.WithBackup(old(Spec()), inst, w)
              case Ok(c) => err.None? && Spec() == c
              case Err(e) => err == Some(e) && Spec() == old(Spec())
    {
      if inst.backup.None? || !inst.backup.value.enabled {
        backup := None;
        return None;
      }
      var entries := inst.backup.value.storages;
      if !w.classAccepts || entries == [] || w.backupImage == "" { return Some(BadBackup); }

      var built := BackupSpec(w.backupImage, map[], []);
      ghost var all := T.RegisterStorages(built, entries, inst.uid, w);
      var i := 0;
      while i < |entries|
        invariant 0 <= i <= |entries|
        invariant T.RegisterStorages(built, entries[i..], inst.uid, w) == all
        invariant Spec() == old(Spec())
      {
        var entry := entries[i];
        assert entries[i..][0] == entry && entries[i..][1..] == entries[i + 1..];
        if !T.StorageUsable(w, entry.storage) { return Some(BadBackup); }
        var storage := OpStorage(T.TrimSlashes(w.storages[entry.storage].bucket), inst.uid);
        var schedules: seq<OpSchedule> := [];
        assert entry.schedules[0..] == entry.schedules;
        BehindNone(T.EnabledSchedules(entry.storage, entry.schedules));
        var j := 0;
        while j < |entry.schedules|
          invariant 0 <= j <= |entry.schedules|
          invariant T.EnabledSchedules(entry.storage, entry.schedules)
                 == Behind(schedules, T.EnabledSchedules(entry.storage, entry.schedules[j..]))
          invariant Spec() == old(Spec())
        {
          var x := entry.schedules[j];
          assert entry.schedules[j..][0] == x && entry.schedules[j..][1..] == entry.schedules[j + 1..];
          if x.enabled {
            var btype := T.ResolveBackupType(x.parameters);
            if btype.None? { return Some(BadBackup); }
            var o := OpSchedule(x.name, x.cron, entry.storage, x.copies, btype.value);
            BehindMore(schedules, o, T.EnabledSchedules(entry.storage, entry.schedules[j + 1..]));
            schedules := schedules + [o];
          }
          j := j + 1;
        }
        assert entry.schedules[j..] == [] && schedules + [] == schedules;
        built := built.(storages := built.storages[entry.storage := storage], schedules := built.schedules + schedules);
        i := i + 1;
      }
      backup := Some(built);
      err := None;
    }
  }

  /** What was appended so far, in front of what the rest will give. */
  function Behind(done: seq<OpSchedule>, rest: Option<seq<OpSchedule>>): Option<seq<OpSchedule>> {
    match rest case None => None case Some(r) => Some(done + r)
  }

  lemma BehindNone(rest: Option<seq<OpSchedule>>)
    ensures Behind([], rest) == rest
  {
    if rest.Some? { assert [] + rest.value == rest.value; }
  }

  lemma BehindMore(done: seq<OpSchedule>, o: OpSchedule, rest: Option<seq<OpSchedule>>)
    ensures Behind(done + [o], rest) == Behind(done, Behind([o], rest))
  {
    if rest.Some? { assert done + [o] + rest.value == done + ([o] + rest.value); }
  }

  /** The first part of Sync's builder: a new cluster with TLS and the engine. */
  method BuildEngine(name: string, inst: Instance, w: World) returns (cluster: PerconaServerMySQL, err: Option<Error>)
    requires Decoded(inst)
    ensures fresh(cluster)
    ensures match T.EngineCluster(name, inst, w)
            case Ok(c) => err.None? && cluster.Spec() == c
            case Err(e) => err == Some(e)
  {
    cluster := new PerconaServerMySQL(name);
    if ENGINE !in inst.components { return cluster, Some(MissingEngine); }
    var engine := inst.components[ENGINE];
    var tls := T.TlsParameters(inst.tls);
    if tls.Err? { return cluster, Some(tls.error); }
    cluster.ConfigureTls(name, tls.value);

    cluster.mysql := cluster.mysql.(image := if engine.image != "" then engine.image else w.mysqlImage);
    if cluster.mysql.image == "" { return cluster, Some(NoImage); }
    if engine.replicas.None? { return cluster, Some(MissingReplicas); }
    cluster.mysql := cluster.mysql.(size := engine.replicas.value);
    err := cluster.ApplyEngineConfiguration(engine);
    if err.Some? { return; }

    var topo := T.TopologyOf(inst);
    if topo == ASYNC { cluster.topology := Async; }
    else if topo == GROUP_REPLICATION { cluster.topology := GroupReplication; }
    else { return cluster, Some(UnsupportedTopology); }
    if T.MysqlSizeUnsafe(w.sizes, topo, cluster.mysql.size) { cluster.unsafe := cluster.unsafe.(mysqlSize := true); }
  }

  /** The part of Sync between the restore check and the final Apply. A cluster with
      PMM comes with its token in both secrets. */
  method BuildCluster(name: string, inst: Instance, w: World, secrets: M.Secrets) returns (r: Result<ClusterSpec>)
    requires Decoded(inst) && w.secrets == secrets.data
    modifies secrets
    ensures r == T.BuildCluster(name, inst, w) || (r == Err(BadMonitoring) && old(secrets.calls) < 5)
    ensures r.Ok? && r.value.pmm.Some? ==>
              var key := M.SharedKey(inst, w);
              key.Some? && M.Agreed(w.secrets, secrets.data, [name + "-secrets", "internal-" + name], key.value)
  {
    hide T.EngineCluster, T.WithOrchestrator, T.WithProxy, T.WithMonitoring, T.WithBackup, M.Agreed, M.SharedKey;
    assert name + "-secrets" != "";
    var cluster, err := BuildEngine(name, inst, w);
    if err.Some? { return Err(err.value); }
    err := cluster.ApplyOrchestrator(inst, w);
    if err.Some? { return Err(err.value); }
    err := cluster.ApplyProxy(inst, w);
    if err.Some? { return Err(err.value); }
    EarlierSteps(name, inst, w);
    assert cluster.secretsName == cluster.Spec().secretsName == name + "-secrets";
    err := cluster.ApplyMonitoring(name, inst, w, secrets);
    if err.Some? { return Err(err.value); }
    SettingsKeepPmm(cluster.Spec(), inst, w);
    assert cluster.pmm == cluster.Spec().pmm;
    ghost var shared := secrets.data;
    err := cluster.ApplyBackupSettings(inst, w);
    if err.Some? { return Err(err.value); }
    assert secrets.data == shared;
    r := Ok(cluster.Spec());
  }

  /** The name of the users secret is fixed from the start. */
  lemma EarlierSteps(name: string, inst: Instance, w: World)
    ensures var c0 := T.EngineCluster(name, inst, w);
            c0.Ok? ==>
              && c0.value.secretsName == name + "-secrets"
              && (T.WithOrchestrator(c0.value, inst, w).Ok? ==>
                    var c1 := T.WithOrchestrator(c0.value, inst, w).value;
                    && c1.secretsName == c0.value.secretsName
                    && (T.WithProxy(c1, inst, w).Ok? ==>
                          T.WithProxy(c1, inst, w).value.secretsName == c0.value.secretsName))
  {
    hide T.ImageFor, T.EngineConfiguration, T.TlsParameters;
  }

  lemma SettingsKeepPmm(c: ClusterSpec, inst: Instance, w: World)
    ensures T.WithBackup(c, inst, w).Ok? ==> T.WithBackup(c, inst, w).value.pmm == c.pmm
  {
    hide T.RegisterStorages;
  }
}
