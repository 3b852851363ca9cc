/** The operator's rules for a cluster resource, and the proof that every cluster
    Sync applies meets them with no unsafe flag too many. */
module OperatorRules {
  import opened Kube
  import opened Instances
  import opened Protocol
  import opened Effects
  import T = Translation

  predicate SafeMysqlSize(z: SafeSizes, topology: Topology, size: int32) {
    match topology
    case Async => z.minAsync <= size
    case GroupReplication => z.minGr <= size < z.maxGr && size % 2 == 1
  }

  /** Group replication has no orchestrator; async has one or says it has none.
      The toolkit comes with the orchestrator. */
  predicate OrchestratorRule(c: ClusterSpec) {
    match c.topology
    case GroupReplication => c.orchestrator.None? && !c.unsafe.orchestrator && c.toolkit.None?
    case Async => (c.orchestrator.Some? <==> !c.unsafe.orchestrator) && (c.toolkit.Some? <==> c.orchestrator.Some?)
  }

  /** At most one proxy, none only if declared, and no router on async. */
  predicate ProxyRule(c: ClusterSpec) {
    && !(c.haproxy.Some? && c.router.Some?)
    && (c.haproxy.None? && c.router.None? <==> c.unsafe.proxy)
    && (c.topology == Async ==> c.router.None?)
  }

  /** There is an orchestrator, and its size is not a safe one. */
  predicate OddlySized(orchestrator: Option<Pod>, z: SafeSizes) {
    orchestrator.Some? && !(z.minGr <= orchestrator.value.size && orchestrator.value.size % 2 == 1)
  }

  /** A size flag is set exactly when the component runs at an unsafe size. */
  predicate SizeRule(c: ClusterSpec, z: SafeSizes) {
    && (c.unsafe.mysqlSize <==> !SafeMysqlSize(z, c.topology, c.mysql.size))
    && (c.unsafe.orchestratorSize <==> OddlySized(c.orchestrator, z))
    && (c.unsafe.proxySize <==> c.router.Some? && c.router.value.size < z.minProxy)
  }

  predicate Accepts(c: ClusterSpec, z: SafeSizes) {
    OrchestratorRule(c) && ProxyRule(c) && SizeRule(c, z)
  }

  /** A router on async is the one thing that can make the built cluster unacceptable. */
  predicate RouterOnAsync(inst: Instance) {
    T.TopologyOf(inst) == ASYNC && PROXY in inst.components && T.ProxyTypeOf(inst.components[PROXY], ASYNC) == ROUTER
  }

  lemma OddSizes(size: int32)
    ensures size % 2 == 0 <==> size % 2 != 1
  {
  }

  /** The parts of a cluster that the orchestrator step leaves for the next ones. */
  lemma OrchestratorStep(c: ClusterSpec, inst: Instance, w: World)
    requires T.TopologyOf(inst) == (if c.topology == Async then ASYNC else GROUP_REPLICATION)
    requires !c.unsafe.orchestrator && !c.unsafe.orchestratorSize && c.toolkit.None?
    requires T.WithOrchestrator(c, inst, w).Ok?
    ensures var c' := T.WithOrchestrator(c, inst, w).value;
            && OrchestratorRule(c')
            && (c'.unsafe.orchestratorSize <==> OddlySized(c'.orchestrator, w.sizes))
            && c' == c.(orchestrator := c'.orchestrator, toolkit := c'.toolkit,
                        unsafe := c.unsafe.(orchestrator := c'.unsafe.orchestrator,
                                            orchestratorSize := c'.unsafe.orchestratorSize))
  {
    hide T.ImageFor;
    if c.topology == Async && ORCHESTRATOR in inst.components {
      OddSizes(T.PodOf(inst.components[ORCHESTRATOR], "", T.DEFAULT_ORCHESTRATOR_SIZE).size);
    }
  }

  lemma ProxyStep(c: ClusterSpec, inst: Instance, w: World)
    requires T.TopologyOf(inst) == (if c.topology == Async then ASYNC else GROUP_REPLICATION)
    requires c.haproxy.None? && c.router.None? && !c.unsafe.proxy && !c.unsafe.proxySize
    requires T.WithProxy(c, inst, w).Ok?
    ensures var c' := T.WithProxy(c, inst, w).value;
            && (ProxyRule(c') <==> !RouterOnAsync(inst))
            && (c'.unsafe.proxySize <==> c'.router.Some? && c'.router.value.size < w.sizes.minProxy)
            && c' == c.(haproxy := c'.haproxy, router := c'.router,
                        unsafe := c.unsafe.(proxy := c'.unsafe.proxy, proxySize := c'.unsafe.proxySize))
  {
    hide T.ImageFor;
  }

  lemma EngineStep(name: string, inst: Instance, w: World)
    requires T.EngineCluster(name, inst, w).Ok?
    ensures var c := T.EngineCluster(name, inst, w).value;
            && T.TopologyOf(inst) == (if c.topology == Async then ASYNC else GROUP_REPLICATION)
            && (c.unsafe.mysqlSize <==> !SafeMysqlSize(w.sizes, c.topology, c.mysql.size))
            && c.unsafe == UnsafeFlags(c.unsafe.mysqlSize, false, false, false, false)
            && c.toolkit.None? && c.haproxy.None? && c.router.None?
            && ENGINE in inst.components && inst.components[ENGINE].replicas == Some(c.mysql.size)
  {
    hide T.EngineConfiguration, T.TlsParameters;
    OddSizes(T.EngineCluster(name, inst, w).value.mysql.size);
  }

  /** Monitoring and backups do not touch what the rules are about. */
  lemma LaterSteps(c: ClusterSpec, name: string, inst: Instance, w: World)
    ensures T.WithMonitoring(c, name, inst, w).Ok? ==>
              T.WithMonitoring(c, name, inst, w).value == c.(pmm := T.WithMonitoring(c, name, inst, w).value.pmm)
    ensures T.WithBackup(c, inst, w).Ok? ==>
              T.WithBackup(c, inst, w).value == c.(backup := T.WithBackup(c, inst, w).value.backup)
  {
    hide T.ImageFor, T.RegisterStorages;
  }

  /** Operator acceptance: whatever cluster Sync builds is acceptable, with every
      flag minimal, unless the Instance asks for a router on async. */
  lemma BuiltAccepted(name: string, inst: Instance, w: World)
    requires T.BuildCluster(name, inst, w).Ok?
    ensures Accepts(T.BuildCluster(name, inst, w).value, w.sizes) <==> !RouterOnAsync(inst)
  {
    EngineStep(name, inst, w);
    var c0 := T.EngineCluster(name, inst, w).value;
    OrchestratorStep(c0, inst, w);
    var c1 := T.WithOrchestrator(c0, inst, w).value;
    ProxyStep(c1, inst, w);
    var c2 := T.WithProxy(c1, inst, w).value;
    LaterSteps(c2, name, inst, w);
    var c3 := T.WithMonitoring(c2, name, inst, w).value;
    LaterSteps(c3, name, inst, w);
    hide T.EngineCluster, T.WithOrchestrator, T.WithProxy, T.WithMonitoring, T.WithBackup;
  }

  /** The one gap is closed by validateProxy. */
  lemma ValidatedAccepted(name: string, inst: Instance, current: Option<ClusterSpec>, w: World)
    requires T.Validate(name, inst, current, w).None? && T.BuildCluster(name, inst, w).Ok?
    ensures Accepts(T.BuildCluster(name, inst, w).value, w.sizes)
  {
    BuiltAccepted(name, inst, w);
    hide T.BuildCluster, T.ValidateTls;
  }

  /** The components run at the sizes the Instance asks for, or the defaults. */
  lemma BuiltSizes(name: string, inst: Instance, w: World)
    requires T.BuildCluster(name, inst, w).Ok?
    ensures var c := T.BuildCluster(name, inst, w).value;
            && ENGINE in inst.components && inst.components[ENGINE].replicas == Some(c.mysql.size)
            && (c.orchestrator.Some? <==> c.topology == Async && ORCHESTRATOR in inst.components)
            && (c.orchestrator.Some? ==> c.orchestrator.value.size == Replicas(inst.components[ORCHESTRATOR], 3))
            && (c.haproxy.Some? || c.router.Some? <==> PROXY in inst.components)
            && (c.haproxy.Some? ==> c.haproxy.value.size == Replicas(inst.components[PROXY], 2))
            && (c.router.Some? ==> c.router.value.size == Replicas(inst.components[PROXY], 2))
  {
    hide T.ImageFor, T.RegisterStorages, T.EngineConfiguration, T.TlsParameters, T.WithMonitoring, T.WithBackup;
    EngineStep(name, inst, w);
    var c2 := T.WithProxy(T.WithOrchestrator(T.EngineCluster(name, inst, w).value, inst, w).value, inst, w).value;
    LaterSteps(c2, name, inst, w);
    LaterSteps(T.WithMonitoring(c2, name, inst, w).value, name, inst, w);
  }

  function Replicas(c: Component, default: int32): int32 {
    match c.replicas case Some(n) => n case None => default
  }

  // ---------------------------------------------------------- over whole runs

  predicate AllAccepted(s: State, z: SafeSizes) {
    forall n :: n in s.clusters ==> Accepts(s.clusters[n].spec, z)
  }

  lemma AcceptedStep(s: State, st: Step, z: SafeSizes)
    requires AllAccepted(s, z) && (st.ReconcileInstance? ==> st.w.sizes == z)
    ensures AllAccepted(Next(s, st), z)
  {
    var s' := Next(s, st);
    forall n | n in s'.clusters ensures Accepts(s'.clusters[n].spec, z) {
      ClusterSteps(s, st, n);
      if st.ReconcileInstance? && st.name == n && n in s.instances
         && T.Validate(n, s.instances[n], CurrentSpec(s, n), st.w).None?
         && T.BuildCluster(n, s.instances[n], st.w).Ok? {
        ValidatedAccepted(n, s.instances[n], CurrentSpec(s, n), st.w);
      }
      hide Next, T.BuildCluster, T.Validate, ActiveRestore;
    }
  }

  /** In every run every cluster the operator ever sees satisfies its rules. */
  lemma {:induction false} ReachableAccepted(tr: seq<State>, steps: seq<Step>, z: SafeSizes, i: nat)
    requires IsRun(tr, steps) && i <= |steps| && tr[0].clusters == map[]
    requires forall j :: 0 <= j < |steps| && steps[j].ReconcileInstance? ==> steps[j].w.sizes == z
    ensures AllAccepted(tr[i], z)
  {
    hide Next, Accepts;
    if i > 0 {
      ReachableAccepted(tr, steps, z, i - 1);
      AcceptedStep(tr[i - 1], steps[i - 1], z);
    }
  }
}
