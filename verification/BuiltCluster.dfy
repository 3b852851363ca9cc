/** The cluster that Sync applies, field by field, in the terms of the Instance, and
    when there is one. */
module BuiltCluster {
  import opened Kube
  import opened Instances
  import T = Translation
  import Config
  import V = Validation
  import S = Schedules
  import M = Monitoring

  predicate OnAsync(inst: Instance) {
    inst.topology == "async"
  }

  /** The catalog and the component give an image. */
  ghost predicate HasImage(w: World, ctype: string, version: string, override: string) {
    exists image :: T.Chosen(w.catalog, ctype, version, override, image) && image != ""
  }

  lemma HasImageExact(w: World, ctype: string, version: string, override: string)
    ensures HasImage(w, ctype, version, override) <==> T.ImageFor(w.catalog, ctype, version, override) != ""
  {
    var image := T.ImageFor(w.catalog, ctype, version, override);
    T.ImageChosen(w.catalog, ctype, version, override);
    forall other | T.Chosen(w.catalog, ctype, version, override, other) ensures other == image {
      T.ChosenOnce(w.catalog, ctype, version, override, image, other);
    }
    hide T.ImageFor, T.Chosen;
  }

  /** The pod of a component: size, image and configuration. */
  ghost predicate PodFor(pod: Pod, c: Component, ctype: string, defaultSize: int32, configuration: string, w: World) {
    && pod.size == (match c.replicas case Some(n) => n case None => defaultSize)
    && T.Chosen(w.catalog, ctype, c.version, c.image, pod.image) && pod.image != ""
    && pod.configuration == configuration
  }

  // ------------------------------------------------------------------- engine

  predicate EngineReady(inst: Instance, w: World) {
    && "engine" in inst.components
    && var engine := inst.components["engine"];
       && (engine.image != "" || w.mysqlImage != "")
       && engine.replicas.Some?
       && (engine.parameters.NoParameters? || (engine.parameters.Fields? && engine.parameters.settings.Settings?))
       && !inst.tls.MalformedTls?
       && (OnAsync(inst) || V.GroupTopology(inst))
  }

  /** The snippet of the engine's parameters; nothing for no parameters. */
  predicate Snippet(engine: Component, text: string) {
    match engine.parameters
    case Fields(Settings(m), _, _) => text == if m == map[] then "" else Config.Render(m)
    case _ => text == ""
  }

  predicate EngineBuilt(c: ClusterSpec, name: string, inst: Instance, w: World) {
    && EngineReady(inst, w)
    && var engine := inst.components["engine"];
       && !c.pause && c.secretsName == name + "-secrets"
       && c.sslSecret == V.SourceSecret(name, inst) && c.issuer == V.IssuerOf(inst)
       && (c.topology == Async <==> OnAsync(inst))
       && Some(c.mysql.size) == engine.replicas
       && c.mysql.image == (if engine.image != "" then engine.image else w.mysqlImage)
       && Snippet(engine, c.mysql.configuration)
  }

  lemma EngineFields(name: string, inst: Instance, w: World)
    ensures T.EngineCluster(name, inst, w).Ok? <==> EngineReady(inst, w)
    ensures T.EngineCluster(name, inst, w).Ok? ==>
              var c := T.EngineCluster(name, inst, w).value;
              && EngineBuilt(c, name, inst, w)
              && c.orchestrator.None? && c.toolkit.None? && c.haproxy.None? && c.router.None?
              && c.pmm.None? && c.backup.None? && !c.unsafe.orchestrator
  {
    V.Normalised(inst);
    hide T.TlsParameters, Config.Render, V.IssuerOf, V.CertificateOf;
  }

  // ------------------------------------------------------------- orchestrator

  ghost predicate OrchestratorReady(inst: Instance, w: World) {
    OnAsync(inst) && "orchestrator" in inst.components ==>
      && HasImage(w, "orchestrator", inst.components["orchestrator"].version, inst.components["orchestrator"].image)
      && HasImage(w, "toolkit", "", "")
  }

  ghost predicate OrchestratorBuilt(c: ClusterSpec, inst: Instance, w: World) {
    if OnAsync(inst) && "orchestrator" in inst.components then
      && c.orchestrator.Some? && c.toolkit.Some?
      && PodFor(c.orchestrator.value, inst.components["orchestrator"], "orchestrator", 3, "", w)
      && T.Chosen(w.catalog, "toolkit", "", "", c.toolkit.value)
    else c.orchestrator.None? && c.toolkit.None?
  }

  lemma OrchestratorFields(c: ClusterSpec, inst: Instance, w: World)
    requires (OnAsync(inst) || V.GroupTopology(inst)) && !c.unsafe.orchestrator && c.toolkit.None?
    ensures var r := T.WithOrchestrator(c, inst, w);
            && (r.Ok? <==> OrchestratorReady(inst, w))
            && (r.Ok? ==> OrchestratorBuilt(r.value, inst, w)
                          && r.value == c.(orchestrator := r.value.orchestrator, toolkit := r.value.toolkit,
                                           unsafe := r.value.unsafe))
  {
    if OnAsync(inst) && "orchestrator" in inst.components {
      var o := inst.components["orchestrator"];
      HasImageExact(w, "orchestrator", o.version, o.image);
      HasImageExact(w, "toolkit", "", "");
      T.ImageChosen(w.catalog, "orchestrator", o.version, o.image);
      T.ImageChosen(w.catalog, "toolkit", "", "");
    }
    hide T.ImageFor, T.Chosen, HasImage;
  }

  // -------------------------------------------------------------------- proxy

  /** An untyped proxy is HAProxy on async and Router on group replication. */
  function ProxyKind(inst: Instance): string
    requires "proxy" in inst.components
  {
    var ctype := inst.components["proxy"].ctype;
    if ctype != "" then ctype else if OnAsync(inst) then "haproxy" else "router"
  }

  ghost predicate ProxyReady(inst: Instance, w: World) {
    "proxy" in inst.components ==>
      var proxy := inst.components["proxy"];
      && (ProxyKind(inst) == "haproxy" || ProxyKind(inst) == "router")
      && HasImage(w, ProxyKind(inst), proxy.version, proxy.image)
      && !proxy.parameters.Malformed?
  }

  function ProxyText(proxy: Component): string {
    match proxy.parameters case Fields(_, text, _) => text case _ => ""
  }

  ghost predicate ProxyBuilt(c: ClusterSpec, inst: Instance, w: World) {
    && (c.haproxy.Some? <==> "proxy" in inst.components && ProxyKind(inst) == "haproxy")
    && (c.router.Some? <==> "proxy" in inst.components && ProxyKind(inst) == "router")
    && (c.haproxy.Some? ==>
          var proxy := inst.components["proxy"];
          PodFor(c.haproxy.value, proxy, "haproxy", 2, ProxyText(proxy), w))
    && (c.router.Some? ==>
          var proxy := inst.components["proxy"];
          PodFor(c.router.value, proxy, "router", 2, ProxyText(proxy), w))
  }

  lemma ProxyFields(c: ClusterSpec, inst: Instance, w: World)
    requires OnAsync(inst) || V.GroupTopology(inst)
    ensures var r := T.WithProxy(c, inst, w);
            && (r.Ok? <==> ProxyReady(inst, w))
            && (r.Ok? ==> ProxyBuilt(r.value, inst, w)
                          && r.value == c.(haproxy := r.value.haproxy, router := r.value.router,
                                           unsafe := r.value.unsafe))
  {
    if "proxy" in inst.components {
      var proxy := inst.components["proxy"];
      HasImageExact(w, ProxyKind(inst), proxy.version, proxy.image);
      T.ImageChosen(w.catalog, ProxyKind(inst), proxy.version, proxy.image);
    }
    hide T.ImageFor, T.Chosen, HasImage;
  }

  // --------------------------------------------------------------- monitoring

  /** The MonitoringConfig that the monitoring component names. */
  function ConfigNamed(inst: Instance): string {
    if "monitoring" !in inst.components then ""
    else match inst.components["monitoring"].parameters
      case Fields(_, _, Some(config)) => config
      case _ => ""
  }

  function MonitoringVersion(inst: Instance, w: World): string
    requires "monitoring" in inst.components
  {
    var version := inst.components["monitoring"].version;
    if version != "" then version else w.pmmVersion
  }

  ghost predicate MonitoringReady(inst: Instance, w: World) {
    "monitoring" in inst.components ==>
      var c := inst.components["monitoring"];
      && (c.ctype == "" || c.ctype == "pmm") && !c.parameters.Malformed?
      && (ConfigNamed(inst) != "" ==>
            && ConfigNamed(inst) in w.monitoring
            && var config := w.monitoring[ConfigNamed(inst)];
               && config.pmm && config.host.Some? && config.credentials != ""
               && HasImage(w, "pmm", MonitoringVersion(inst, w), c.image)
               && config.credentials in w.secrets && V.Filled(w.secrets[config.credentials], "apiKey"))
  }

  ghost predicate MonitoringBuilt(c: ClusterSpec, name: string, inst: Instance, w: World) {
    if ConfigNamed(inst) == "" then c.pmm.None?
    else
      && "monitoring" in inst.components && ConfigNamed(inst) in w.monitoring && c.pmm.Some?
      && Some(c.pmm.value.host) == w.monitoring[ConfigNamed(inst)].host && c.pmm.value.cluster == name
      && T.Chosen(w.catalog, "pmm", MonitoringVersion(inst, w), inst.components["monitoring"].image, c.pmm.value.image)
  }

  lemma MonitoringFields(c: ClusterSpec, name: string, inst: Instance, w: World)
    ensures var r := T.WithMonitoring(c, name, inst, w);
            && (r.Ok? <==> MonitoringReady(inst, w))
            && (r.Ok? ==> MonitoringBuilt(r.value, name, inst, w) && r.value == c.(pmm := r.value.pmm))
  {
    if "monitoring" in inst.components {
      var m := inst.components["monitoring"];
      HasImageExact(w, "pmm", MonitoringVersion(inst, w), m.image);
      T.ImageChosen(w.catalog, "pmm", MonitoringVersion(inst, w), m.image);
    }
    hide T.ImageFor, T.Chosen, HasImage;
  }

  /** The key that the secrets share is the one under "apiKey" in the credentials. */
  lemma TokenKey(inst: Instance, w: World)
    requires MonitoringReady(inst, w) && ConfigNamed(inst) != ""
    ensures M.SharedKey(inst, w) == Some(w.secrets[w.monitoring[ConfigNamed(inst)].credentials]["apiKey"])
  {
    hide HasImage;
  }

  /** An Instance is indexed under the MonitoringConfig it names, and under no other. */
  lemma IndexedUnderConfig(inst: Instance)
    ensures M.IndexValue(inst) == if ConfigNamed(inst) == "" then None else Some(ConfigNamed(inst))
  {
  }

  // ------------------------------------------------------------------ backups

  predicate BackupReady(inst: Instance, w: World) {
    inst.backup.Some? && inst.backup.value.enabled ==>
      && w.classAccepts && w.backupImage != "" && inst.backup.value.storages != []
      && S.Translatable(inst.backup.value.storages, w)
  }

  /** The storages that are referenced and the schedules that are enabled. */
  predicate BackupBuilt(c: ClusterSpec, inst: Instance, w: World) {
    match inst.backup
    case None => c.backup.None?
    case Some(plan) =>
      if !plan.enabled then c.backup.None?
      else && c.backup.Some? && c.backup.value.image == w.backupImage
           && c.backup.value.storages.Keys == S.StorageNames(plan.storages)
           && S.TranslatesAll(S.Enabled(plan.storages), c.backup.value.schedules)
  }

  lemma BackupFields(c: ClusterSpec, inst: Instance, w: World)
    ensures var r := T.WithBackup(c, inst, w);
            && (r.Ok? <==> BackupReady(inst, w))
            && (r.Ok? ==> BackupBuilt(r.value, inst, w) && r.value == c.(backup := r.value.backup))
  {
    if inst.backup.Some? && inst.backup.value.enabled { S.BackupSettingsExact(c, inst, w); }
    hide T.RegisterStorages, S.Translatable;
  }

  // ----------------------------------------------------------- the whole cluster

  ghost predicate Ready(inst: Instance, w: World) {
    EngineReady(inst, w) && OrchestratorReady(inst, w) && ProxyReady(inst, w) && MonitoringReady(inst, w)
    && BackupReady(inst, w)
  }

  ghost predicate Built(c: ClusterSpec, name: string, inst: Instance, w: World) {
    && EngineBuilt(c, name, inst, w) && OrchestratorBuilt(c, inst, w) && ProxyBuilt(c, inst, w)
    && MonitoringBuilt(c, name, inst, w) && BackupBuilt(c, inst, w)
  }

  /** Sync builds a cluster exactly for the Instances that are ready, and it is the one
      they ask for, in every field. */
  lemma BuildExact(name: string, inst: Instance, w: World)
    ensures T.BuildCluster(name, inst, w).Ok? <==> Ready(inst, w)
    ensures T.BuildCluster(name, inst, w).Ok? ==> Built(T.BuildCluster(name, inst, w).value, name, inst, w)
  {
    EngineFields(name, inst, w);
    var r0 := T.EngineCluster(name, inst, w);
    if r0.Ok? {
      OrchestratorFields(r0.value, inst, w);
      var r1 := T.WithOrchestrator(r0.value, inst, w);
      if r1.Ok? {
        ProxyFields(r1.value, inst, w);
        var r2 := T.WithProxy(r1.value, inst, w);
        if r2.Ok? {
          MonitoringFields(r2.value, name, inst, w);
          var r3 := T.WithMonitoring(r2.value, name, inst, w);
          if r3.Ok? { BackupFields(r3.value, inst, w); }
        }
      }
    }
    hide T.EngineCluster, T.WithOrchestrator, T.WithProxy, T.WithMonitoring, T.WithBackup, EngineReady,
         OrchestratorReady, ProxyReady, MonitoringReady, BackupReady;
  }
}
