/** How far restore exclusion reaches: the exact conditions under which Sync leaves a
    cluster alone, with the inputs on which it does not. */
module ExclusionLimits {
  import opened Kube
  import opened Instances
  import opened Protocol
  import opened Effects
  import opened RestoreExclusion
  import T = Translation

  // ------------------------------------------------- one reconcile of the Restore

  /** The guards of resolveRestoreSource that give up for good. */
  predicate SourceRefused(s: State, r: Restore) {
    || r.source.OtherSource?
    || r.source.name == ""
    || (r.source.name in s.backups
        && (s.backups[r.source.name].state == Failed || s.backups[r.source.name].instance != r.instance))
  }

  predicate SourceMissing(s: State, r: Restore) {
    r.source.FromBackup? && r.source.name != "" && r.source.name !in s.backups
  }

  /** What an undisturbed call reports: the source is looked at first, the operator
      restore only after that. */
  lemma UndisturbedReport(s: State, r: string, k: nat)
    requires r in s.restores && !RestoreConflict(s, r) && k >= 6
    ensures SyncRestore(s, r, k).out ==
              if SourceRefused(s, s.restores[r]) then REFUSED
              else if SourceMissing(s, s.restores[r]) then WAITING
              else if r in s.opRestores then ReportOf(s.opRestores[r].status, s.opRestores[r].completedAt)
              else ReportOf(OpNew, None)
  {
    hide SyncRestore, SetControllerReference;
    var out := SyncRestore(s, r, k);
    assert OpRestoreCase(s, r, out);
    assert out.out != Failure;
  }

  /** The reconcile writes that report and touches nothing else that the reconcile of
      the Instance looks at. */
  ghost predicate Reconciled(s: State, s': State, r: string, state: ExecState) {
    && s'.clusters == s.clusters && s'.instances == s.instances && s'.restores.Keys == s.restores.Keys
    && r in s.restores && r in s'.restores
    && s'.restores[r] == s.restores[r].(meta := s'.restores[r].meta, state := state)
    && s'.restores[r].meta.deleting == s.restores[r].meta.deleting
    && (forall q :: q in s.restores && q != r ==> s'.restores[q] == s.restores[q])
    && (forall q :: q != r ==> Get(s'.opRestores, q) == Get(s.opRestores, q))
  }

  lemma ReconcileWrites(s: State, r: string, k: nat)
    requires r in s.restores && !s.restores[r].meta.deleting && !RestoreConflict(s, r) && k >= 6
    ensures SyncRestore(s, r, k).out.Report?
    ensures Reconciled(s, Next(s, ReconcileRestore(r, k, true)), r, SyncRestore(s, r, k).out.state)
    ensures Get(Next(s, ReconcileRestore(r, k, true)).opRestores, r) == Get(SyncRestore(s, r, k).s.opRestores, r)
  {
    hide SyncRestore, RestoreConflict, OpRestoreCase;
  }

  // ------------------------------------------------ when the exclusion is kept

  /** An error-free SyncRestore keeps an in-flight restore active if and only if the
      Restore still names the cluster and its source is not refused. */
  lemma SourceDecidesActive(s: State, r: string, k: nat)
    requires InFlight(s, r) && !RestoreConflict(s, r) && k >= 6
    ensures var s' := Next(s, ReconcileRestore(r, k, true));
            && r in s'.restores
            && (Active(s'.restores[r], s.opRestores[r].cluster) <==>
                  s.restores[r].instance == s.opRestores[r].cluster && !SourceRefused(s, s.restores[r]))
  {
    UndisturbedReport(s, r, k);
    ReconcileWrites(s, r, k);
    hide Next, SyncRestore, SourceRefused, SourceMissing, RestoreConflict;
  }

  /** An edit that turns the source of an in-flight Restore into anything else but a
      Backup is such an input: one reconcile later the scan no longer sees it. */
  lemma EditedSourceLosesActive(s: State, r: string, edit: Restore, k: nat)
    requires InFlight(s, r) && edit.source.OtherSource? && k >= 6
    ensures var s1 := Next(s, EditRestore(r, edit));
            var s2 := Next(s1, ReconcileRestore(r, k, true));
            && InFlight(s2, r) && s2.opRestores[r] == s.opRestores[r]
            && !Active(s2.restores[r], s.opRestores[r].cluster)
  {
    var s1 := s.(restores := s.restores[r := s.restores[r].(instance := edit.instance, source := edit.source)]);
    assert Next(s, EditRestore(r, edit)) == s1;
    assert ResolveSource(s1, s1.restores[r]) == Some(REFUSED);
    UndisturbedReport(s1, r, k);
    ReconcileWrites(s1, r, k);
    assert OpRestoreCase(s1, r, SyncRestore(s1, r, k));
    hide Next, SyncRestore;
  }

  /** Nothing but the restore in question stands between the Instance and its next
      reconcile. */
  predicate WouldApply(s: State, r: string, c: string, w: World) {
    && c in s.instances && !s.instances[c].deleting && c in s.clusters
    && (forall q :: q in s.restores && q != r ==> !Active(s.restores[q], c))
    && T.Validate(c, s.instances[c], CurrentSpec(s, c), w).None? && T.BuildCluster(c, s.instances[c], w).Ok?
  }

  lemma BuiltUnpaused(n: string, inst: Instance, w: World)
    ensures T.BuildCluster(n, inst, w).Ok? ==> !T.BuildCluster(n, inst, w).value.pause
  {
    hide T.ImageFor, T.RegisterStorages, T.EngineConfiguration, T.TlsParameters;
  }

  /** The next reconcile of the Instance leaves the state alone exactly when the
      Restore is active, and otherwise clears the pause. */
  lemma ReconcileDecided(s: State, r: string, c: string, w: World)
    requires r in s.restores && WouldApply(s, r, c, w)
    ensures var s' := Next(s, ReconcileInstance(c, w));
            if Active(s.restores[r], c) then s' == s
            else s' == s.(clusters := s'.clusters) && c in s'.clusters && !s'.clusters[c].spec.pause
  {
    BuiltUnpaused(c, s.instances[c], w);
    assert ActiveRestore(s, c) <==> Active(s.restores[r], c);
    hide T.BuildCluster, T.Validate, ActiveRestore, Active;
  }

  /** The promise not to fight the operator's pause, with its exact condition. For a
      cluster the operator has paused for a restore, a reconcile of the Restore and
      one of the Instance keep the pause if and only if the Restore is not being
      deleted, still names the cluster, and has a source that is not refused. */
  lemma PauseKeptExactly(s: State, r: string, w: World, k: nat)
    requires r in s.opRestores && !OpTerminal(s.opRestores[r].status)
    requires r in s.restores && !RestoreConflict(s, r) && k >= 6
    requires WouldApply(s, r, s.opRestores[r].cluster, w) && s.clusters[s.opRestores[r].cluster].spec.pause
    ensures var c, restore := s.opRestores[r].cluster, s.restores[r];
            var s' := Next(Next(s, ReconcileRestore(r, k, true)), ReconcileInstance(c, w));
            && c in s'.clusters
            && (s'.clusters[c].spec.pause <==>
                  !restore.meta.deleting && restore.instance == c && !SourceRefused(s, restore))
  {
    var c := s.opRestores[r].cluster;
    var s1 := Next(s, ReconcileRestore(r, k, true));
    if s.restores[r].meta.deleting {
      assert s1 == s;
    } else {
      ReconcileWrites(s, r, k);
      UndisturbedReport(s, r, k);
      assert WouldApply(s1, r, c, w);
    }
    ReconcileDecided(s1, r, c, w);
    hide Next, SyncRestore, SourceMissing, RestoreConflict, T.Validate, T.BuildCluster;
  }

  // --------------------------------------------- when a finished Restore falls back

  /** A terminal Restore goes back to a state that counts as active if and only if its
      source Backup is missing, or usable while the operator restore is absent or
      still running. From then on Sync leaves its Instance alone. */
  lemma FallsBackExactly(s: State, r: string, w: World, k: nat)
    requires r in s.restores && !s.restores[r].meta.deleting && Terminal(s.restores[r].state)
    requires !RestoreConflict(s, r) && k >= 6
    ensures var s' := Next(s, ReconcileRestore(r, k, true));
            && r in s'.restores
            && (!Terminal(s'.restores[r].state) <==>
                  || SourceMissing(s, s.restores[r])
                  || (!SourceRefused(s, s.restores[r])
                      && (r in s.opRestores ==> !OpTerminal(s.opRestores[r].status))))
            && (!Terminal(s'.restores[r].state) ==> Next(s', ReconcileInstance(s.restores[r].instance, w)) == s')
  {
    ReconcileWrites(s, r, k);
    UndisturbedReport(s, r, k);
    var s' := Next(s, ReconcileRestore(r, k, true));
    if !Terminal(s'.restores[r].state) { ActiveBlocks(s', r, w); }
    hide Next, SyncRestore, RestoreConflict;
  }

  lemma ActiveBlocks(s: State, r: string, w: World)
    requires r in s.restores && Active(s.restores[r], s.restores[r].instance)
    ensures Next(s, ReconcileInstance(s.restores[r].instance, w)) == s
  {
  }

  /** The Restore waits for a source that is not there. */
  predicate Stranded(s: State, r: string, instance: string, source: string) {
    && r in s.restores && !s.restores[r].meta.deleting && !Terminal(s.restores[r].state)
    && s.restores[r].instance == instance && s.restores[r].source == FromBackup(source) && source != ""
  }

  lemma StrandedStep(s: State, st: Step, s': State, r: string, instance: string, source: string)
    requires Stranded(s, r, instance, source) && source !in s.backups && RestoreStep(s, st, r, s')
    requires !(st.EditRestore? && st.name == r) && !(st.DeleteRestore? && st.name == r)
    ensures Stranded(s', r, instance, source)
  {
    hide SyncRestore;
  }

  /** Over runs: as long as the source stays away and nobody edits or deletes the
      Restore, no reconcile of the Instance changes anything. */
  lemma {:induction false} MissingSourceBlocksSync(tr: seq<State>, steps: seq<Step>, r: string, instance: string,
                                                   source: string, i: nat)
    requires IsRun(tr, steps) && i <= |steps| && Stranded(tr[0], r, instance, source)
    requires forall j :: 0 <= j < |steps| ==>
               && source !in tr[j].backups
               && !(steps[j].EditRestore? && steps[j].name == r) && !(steps[j].DeleteRestore? && steps[j].name == r)
    ensures Stranded(tr[i], r, instance, source)
    ensures i < |steps| && steps[i].ReconcileInstance? && steps[i].name == instance ==> tr[i + 1] == tr[i]
  {
    hide Next;
    if i > 0 {
      MissingSourceBlocksSync(tr, steps, r, instance, source, i - 1);
      RestoreSteps(tr[i - 1], steps[i - 1], r);
      StrandedStep(tr[i - 1], steps[i - 1], tr[i], r, instance, source);
    }
    if i < |steps| && steps[i].ReconcileInstance? { ActiveBlocks(tr[i], r, steps[i].w); }
    hide RestoreStep;
  }

  // ---------------------------------------- when the scan and the apply are apart

  predicate ActiveAt(s: State, r: string, c: string) {
    r in s.restores && Active(s.restores[r], c)
  }

  /** Some time after i the Restore became active, and it has been since. */
  ghost predicate BecameActive(tr: seq<State>, r: string, c: string, i: nat, j: nat)
    requires i <= j < |tr|
  {
    exists h :: i <= h < j && !ActiveAt(tr[h], r, c) && forall m :: h < m <= j ==> ActiveAt(tr[m], r, c)
  }

  lemma {:induction false} ActiveSinceScan(tr: seq<State>, r: string, c: string, i: nat, j: nat)
    requires i <= j < |tr| && !ActiveAt(tr[i], r, c)
    ensures ActiveAt(tr[j], r, c) <==> BecameActive(tr, r, c, i, j)
    decreases j - i
  {
    hide ActiveAt;
    if i < j {
      ActiveSinceScan(tr, r, c, i, j - 1);
      if ActiveAt(tr[j], r, c) && ActiveAt(tr[j - 1], r, c) {
        var h :| i <= h < j - 1 && !ActiveAt(tr[h], r, c) && forall m :: h < m <= j - 1 ==> ActiveAt(tr[m], r, c);
        assert forall m :: h < m <= j ==> ActiveAt(tr[m], r, c);
      }
    }
  }

  /** The operator is restoring into the cluster. */
  predicate RunningOn(s: State, r: string, c: string) {
    r in s.opRestores && s.opRestores[r].cluster == c && !OpTerminal(s.opRestores[r].status)
  }

  /** A Sync that lists Restores at one point of a run and applies at a later one, with
      anything in between. For a restore that is running by then, the apply hits it in
      flight if and only if its Restore became active between the two. */
  lemma LateApplyHits(tr: seq<State>, steps: seq<Step>, r: string, home: map<string, string>, c: string, i: nat, j: nat)
    requires IsRun(tr, steps) && i <= j <= |steps| && r !in tr[0].restores && r !in tr[0].opRestores
    requires forall h :: 0 <= h < |steps| ==> SourceSound(tr[h], r, home) && Fair(tr[h], steps[h], r)
    requires !ActiveRestore(tr[i], c) && RunningOn(tr[j], r, c)
    ensures InFlight(tr[j], r) <==> BecameActive(tr, r, c, i, j)
  {
    hide Next, BecameActive;
    RunLinked(tr, steps, r, home, j);
    ActiveSinceScan(tr, r, c, i, j);
  }

  /** Such a Sync keeps the exclusion if and only if no Restore of a running restore
      became active between its scan and its apply; otherwise the apply clears the
      pause under it. */
  lemma SplitSyncExact(tr: seq<State>, steps: seq<Step>, home: map<string, string>, c: string, w: World, i: nat, j: nat)
    requires IsRun(tr, steps) && i <= j <= |steps| && tr[0].restores == map[] && tr[0].opRestores == map[]
    requires forall r, h :: 0 <= h < |steps| ==> SourceSound(tr[h], r, home) && Fair(tr[h], steps[h], r)
    requires !ActiveRestore(tr[i], c) && c in tr[i].instances && T.BuildCluster(c, tr[i].instances[c], w).Ok?
    ensures (exists r :: RunningOn(tr[j], r, c) && InFlight(tr[j], r))
       <==> (exists r :: RunningOn(tr[j], r, c) && BecameActive(tr, r, c, i, j))
    ensures var s' := Apply(tr[j], c, T.BuildCluster(c, tr[i].instances[c], w).value);
            c in s'.clusters && !s'.clusters[c].spec.pause && forall r :: InFlight(s', r) <==> InFlight(tr[j], r)
  {
    hide Next, BecameActive, T.BuildCluster, ActiveRestore, SourceSound, Fair, RunningOn;
    BuiltUnpaused(c, tr[i].instances[c], w);
    forall r | RunningOn(tr[j], r, c) ensures InFlight(tr[j], r) <==> BecameActive(tr, r, c, i, j) {
      LateApplyHits(tr, steps, r, home, c, i, j);
    }
  }
}
