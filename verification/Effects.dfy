/** What one step can do to one Backup and to one operator backup, whatever the
    step is. The theorems about runs argue from these cases. */
module Effects {
  import opened Kube
  import opened Protocol
  import T = Translation

  predicate TouchesBackups(st: Step) {
    || st.ReconcileBackup? || st.FinishBackup? || st.MirrorBackup?
    || st.CreateBackup? || st.EditBackup? || st.DeleteBackup?
    || st.FireSchedule? || st.AdvanceBackup? || st.Purge?
    || ((st.PutFinalizer? || st.DropFinalizer? || st.RequestDelete?) && st.target.BackupObject?)
  }

  ghost predicate SameBackups(s: State, s': State) {
    s'.backups == s.backups && s'.opBackups == s.opBackups && s'.purged == s.purged && s.nextUid <= s'.nextUid
  }

  /** All other steps leave Backups, operator backups and their data alone. */
  lemma BackupsFrame(s: State, st: Step)
    requires !TouchesBackups(st)
    ensures SameBackups(s, Next(s, st))
  {
    hide DoReconcileRestore, DoFinishRestore, DoFinishInstance, Reconcile, Apply, Refinalize, DoRequestDelete,
         DoReconcileBackup, DoFinishBackup, DoMirror, DoFire, DoPurge;
    if st.PutFinalizer? || st.DropFinalizer? || st.RequestDelete? { BackupsMetaFrame(s, st); hide Next; }
  }

  lemma BackupsMetaFrame(s: State, st: Step)
    requires (st.PutFinalizer? || st.DropFinalizer? || st.RequestDelete?) && !st.target.BackupObject?
    ensures SameBackups(s, Next(s, st))
  {
    hide Refinalize, DoRequestDelete;
  }

  ghost predicate OpBackupStep(s: State, st: Step, n: string, s': State) {
    var op, op' := Get(s.opBackups, n), Get(s'.opBackups, n);
    || op' == op
    || (st.ReconcileBackup? && st.name == n && n in s.backups && !s.backups[n].meta.deleting
        && OpBackupCase(s, n, SyncBackup(s, n, st.k)) && op' == Get(SyncBackup(s, n, st.k).s.opBackups, n)
        && s'.nextUid == SyncBackup(s, n, st.k).s.nextUid)
    || (st.FinishBackup? && st.name == n && n in s.backups && s.backups[n].meta.deleting
        && CleanupCase(s, n, CleanupBackup(s, n, st.k)) && op' == Get(CleanupBackup(s, n, st.k).s.opBackups, n))
    || (st.FireSchedule? && st.name == n && op.None? && op'.Some? && !op'.value.meta.deleting
        && op'.value.meta.uid == s.nextUid && op'.value.meta.owners == [] && s'.nextUid == s.nextUid + 1)
    || (st.AdvanceBackup? && st.name == n && op.Some?
        && op' == Some(op.value.(status := st.status, completedAt := st.completedAt)))
    || (st.Purge? && st.name == n && PurgeEnabled(s, n) && s'.purged == s.purged + {op.value.meta.uid}
        && (var kept := RemoveFinalizer(op.value.meta.finalizers, DELETE_BACKUP);
            op' == if kept == [] then None else Some(op.value.(meta := op.value.meta.(finalizers := kept)))))
    || ((st.PutFinalizer? || st.DropFinalizer?) && st.target.BackupObject? && st.name == n && op.Some?
        && (if op'.None? then op.value.meta.deleting
            else op'.value == op.value.(meta := op'.value.meta) && Refinalized(op.value.meta, op'.value.meta)))
    || (st.RequestDelete? && st.target.BackupObject? && st.name == n && op.Some?
        && (if op'.None? then op.value.meta.finalizers == []
            else op'.value == op.value.(meta := op'.value.meta) && Marked(op.value.meta, op'.value.meta)))
  }

  ghost predicate BackupStep(s: State, st: Step, n: string, s': State) {
    var b, b' := Get(s.backups, n), Get(s'.backups, n);
    || b' == b
    || (st.ReconcileBackup? && st.name == n && b.Some? && b'.Some? && !b.value.meta.deleting
        && b'.value == b.value.(meta := b'.value.meta, state := b'.value.state) && Touched(b.value.meta, b'.value.meta)
        && (b'.value.state == b.value.state
            || (SyncBackup(s, n, st.k).out.Report? && b'.value.state == SyncBackup(s, n, st.k).out.state)))
    || (st.FinishBackup? && st.name == n && b.Some? && b'.None? && n !in s.opBackups && s'.opBackups == s.opBackups)
    || (st.MirrorBackup? && st.name == n && b.None? && n in s.opBackups && |st.hash| == 5
        && Mirror(s, n, st.hash).Some? && b' == Mirror(s, n, st.hash))
    || (st.CreateBackup? && st.name == n && b.None?
        && b' == Some(st.backup.(meta := NewMeta(s.nextUid, [], []), state := Unset)))
    || (st.EditBackup? && st.name == n && b.Some? && b' == Some(EditedBackup(b.value, st.backup)))
    || (st.DeleteBackup? && st.name == n && b.Some? && b' == Some(b.value.(meta := b.value.meta.(deleting := true))))
  }

  /** Both at once, one kind of step after another. */
  ghost predicate BackupEffects(s: State, st: Step, n: string, s': State) {
    OpBackupStep(s, st, n, s') && BackupStep(s, st, n, s')
  }

  lemma BackupReconciled(s: State, st: Step, n: string)
    requires st.ReconcileBackup?
    ensures BackupEffects(s, st, n, Next(s, st))
  {
    hide SyncBackup, CleanupBackup, Mirror, OpBackupCase, CleanupCase;
  }

  lemma BackupFinished(s: State, st: Step, n: string)
    requires st.FinishBackup?
    ensures BackupEffects(s, st, n, Next(s, st))
  {
    hide SyncBackup, CleanupBackup, Mirror, OpBackupCase, CleanedUp;
  }

  lemma BackupMetaWritten(s: State, st: Step, n: string)
    requires (st.PutFinalizer? || st.DropFinalizer? || st.RequestDelete?) && st.target.BackupObject?
    ensures BackupEffects(s, st, n, Next(s, st))
  {
    hide SyncBackup, CleanupBackup, Mirror, OpBackupCase, CleanupCase, Refinalize, DoRequestDelete;
  }

  lemma OperatorActed(s: State, st: Step, n: string)
    requires st.FireSchedule? || st.AdvanceBackup? || st.Purge?
    ensures BackupEffects(s, st, n, Next(s, st))
  {
    hide SyncBackup, CleanupBackup, Mirror, OpBackupCase, CleanupCase;
  }

  lemma BackupRequested(s: State, st: Step, n: string)
    requires st.MirrorBackup? || st.CreateBackup? || st.EditBackup? || st.DeleteBackup?
    ensures BackupEffects(s, st, n, Next(s, st))
  {
    hide SyncBackup, CleanupBackup, Mirror, OpBackupCase, CleanupCase;
  }

  lemma AllBackupEffects(s: State, st: Step, n: string)
    ensures BackupEffects(s, st, n, Next(s, st))
  {
    if !TouchesBackups(st) { BackupsFrame(s, st); }
    else if st.ReconcileBackup? { BackupReconciled(s, st, n); }
    else if st.FinishBackup? { BackupFinished(s, st, n); }
    else if st.FireSchedule? || st.AdvanceBackup? || st.Purge? { OperatorActed(s, st, n); }
    else if st.PutFinalizer? || st.DropFinalizer? || st.RequestDelete? { BackupMetaWritten(s, st, n); }
    else { BackupRequested(s, st, n); }
    hide Next, SyncBackup, CleanupBackup, Mirror, OpBackupCase, CleanupCase;
  }

  lemma OpBackupSteps(s: State, st: Step, n: string)
    ensures OpBackupStep(s, st, n, Next(s, st))
  {
    hide Next, OpBackupStep, BackupStep;
    AllBackupEffects(s, st, n);
  }

  lemma BackupSteps(s: State, st: Step, n: string)
    ensures BackupStep(s, st, n, Next(s, st))
  {
    hide Next, OpBackupStep, BackupStep;
    AllBackupEffects(s, st, n);
  }

  predicate TouchesRestores(st: Step) {
    || st.ReconcileRestore? || st.FinishRestore? || st.CreateRestore? || st.EditRestore? || st.DeleteRestore?
    || st.AdvanceRestore? || ((st.PutFinalizer? || st.DropFinalizer? || st.RequestDelete?) && st.target.RestoreObject?)
  }

  /** All other steps leave Restores and operator restores alone. */
  lemma RestoresFrame(s: State, st: Step)
    requires !TouchesRestores(st)
    ensures Next(s, st).restores == s.restores && Next(s, st).opRestores == s.opRestores
  {
    hide DoReconcileBackup, DoFinishBackup, DoFinishInstance, Reconcile, Apply, Refinalize, DoRequestDelete, Mirror,
         DoReconcileRestore, DoFinishRestore, DoFire, DoPurge;
  }

  ghost predicate OpRestoreStep(s: State, st: Step, n: string, s': State) {
    var op, op' := Get(s.opRestores, n), Get(s'.opRestores, n);
    || op' == op
    || (st.ReconcileRestore? && st.name == n && n in s.restores && !s.restores[n].meta.deleting
        && OpRestoreCase(s, n, SyncRestore(s, n, st.k)) && op' == Get(SyncRestore(s, n, st.k).s.opRestores, n))
    || (st.FinishRestore? && st.name == n && n in s.restores && s.restores[n].meta.deleting && op.Some?
        && !op.value.meta.deleting
        && (if op'.None? then op.value.meta.finalizers == []
            else op'.value == op.value.(meta := op'.value.meta) && Marked(op.value.meta, op'.value.meta)))
    || (st.AdvanceRestore? && st.name == n && op.Some?
        && op' == Some(op.value.(status := st.status, completedAt := st.completedAt)))
    || ((st.PutFinalizer? || st.DropFinalizer?) && st.target.RestoreObject? && st.name == n && op.Some?
        && (if op'.None? then op.value.meta.deleting
            else op'.value == op.value.(meta := op'.value.meta) && Refinalized(op.value.meta, op'.value.meta)))
    || (st.RequestDelete? && st.target.RestoreObject? && st.name == n && op.Some?
        && (if op'.None? then op.value.meta.finalizers == []
            else op'.value == op.value.(meta := op'.value.meta) && Marked(op.value.meta, op'.value.meta)))
  }

  ghost predicate RestoreStep(s: State, st: Step, n: string, s': State) {
    var r, r' := Get(s.restores, n), Get(s'.restores, n);
    || r' == r
    || (st.ReconcileRestore? && st.name == n && r.Some? && r'.Some? && !r.value.meta.deleting
        && r'.value == r.value.(meta := r'.value.meta, state := r'.value.state) && Touched(r.value.meta, r'.value.meta)
        && OpRestoreCase(s, n, SyncRestore(s, n, st.k))
        && Get(s'.opRestores, n) == Get(SyncRestore(s, n, st.k).s.opRestores, n)
        && (r'.value.state == r.value.state
            || (SyncRestore(s, n, st.k).out.Report? && r'.value.state == SyncRestore(s, n, st.k).out.state)))
    || (st.FinishRestore? && st.name == n && r.Some? && r.value.meta.deleting && r'.None?
        && n !in s.opRestores && s'.opRestores == s.opRestores)
    || (st.CreateRestore? && st.name == n && r.None? && s'.nextUid == s.nextUid + 1 && s'.opRestores == s.opRestores
        && r' == Some(st.restore.(meta := NewMeta(s.nextUid, [], []), state := Unset)))
    || (st.EditRestore? && st.name == n && r.Some? && s'.opRestores == s.opRestores
        && r' == Some(r.value.(instance := st.restore.instance, source := st.restore.source)))
    || (st.DeleteRestore? && st.name == n && r.Some? && s'.opRestores == s.opRestores
        && r' == Some(r.value.(meta := r.value.meta.(deleting := true))))
  }

  ghost predicate RestoreEffects(s: State, st: Step, n: string, s': State) {
    OpRestoreStep(s, st, n, s') && RestoreStep(s, st, n, s')
  }

  lemma RestoreReconciled(s: State, st: Step, n: string)
    requires st.ReconcileRestore?
    ensures RestoreEffects(s, st, n, Next(s, st))
  {
    hide SyncRestore, CleanupRestore, OpRestoreCase;
  }

  lemma RestoreFinished(s: State, st: Step, n: string)
    requires st.FinishRestore?
    ensures RestoreEffects(s, st, n, Next(s, st))
  {
    hide SyncRestore, CleanupRestore, OpRestoreCase;
  }

  lemma RestoreMetaWritten(s: State, st: Step, n: string)
    requires (st.PutFinalizer? || st.DropFinalizer? || st.RequestDelete?) && st.target.RestoreObject?
    ensures RestoreEffects(s, st, n, Next(s, st))
  {
    hide SyncRestore, CleanupRestore, OpRestoreCase, Refinalize, DoRequestDelete;
  }

  lemma RestoreRequested(s: State, st: Step, n: string)
    requires st.CreateRestore? || st.EditRestore? || st.DeleteRestore? || st.AdvanceRestore?
    ensures RestoreEffects(s, st, n, Next(s, st))
  {
    hide SyncRestore, CleanupRestore, OpRestoreCase;
  }

  lemma AllRestoreEffects(s: State, st: Step, n: string)
    ensures RestoreEffects(s, st, n, Next(s, st))
  {
    if !TouchesRestores(st) { RestoresFrame(s, st); }
    else if st.ReconcileRestore? { RestoreReconciled(s, st, n); }
    else if st.FinishRestore? { RestoreFinished(s, st, n); }
    else if st.PutFinalizer? || st.DropFinalizer? || st.RequestDelete? { RestoreMetaWritten(s, st, n); }
    else { RestoreRequested(s, st, n); }
    hide Next, SyncRestore, CleanupRestore, OpRestoreCase;
  }

  lemma OpRestoreSteps(s: State, st: Step, n: string)
    ensures OpRestoreStep(s, st, n, Next(s, st))
  {
    hide Next, OpRestoreStep, RestoreStep;
    AllRestoreEffects(s, st, n);
  }

  lemma RestoreSteps(s: State, st: Step, n: string)
    ensures RestoreStep(s, st, n, Next(s, st))
  {
    hide Next, OpRestoreStep, RestoreStep;
    AllRestoreEffects(s, st, n);
  }

  ghost predicate ClusterStep(s: State, st: Step, n: string, s': State) {
    var c, c' := Get(s.clusters, n), Get(s'.clusters, n);
    || c' == c
    || (st.ReconcileInstance? && st.name == n && n in s.instances && !s.instances[n].deleting && !ActiveRestore(s, n)
        && T.Validate(n, s.instances[n], CurrentSpec(s, n), st.w).None? && T.BuildCluster(n, s.instances[n], st.w).Ok?
        && c'.Some? && c'.value.spec == T.BuildCluster(n, s.instances[n], st.w).value
        && (if c.Some? then c'.value.meta == c.value.meta
            else c'.value.meta == NewMeta(s.nextUid, [], []) && s'.nextUid == s.nextUid + 1))
    || (st.FinishInstance? && st.name == n && n in s.instances && s.instances[n].deleting
        && c.Some? && !c.value.meta.deleting
        && (if c'.None? then c.value.meta.finalizers == []
            else c'.value == c.value.(meta := c'.value.meta) && Marked(c.value.meta, c'.value.meta)))
    || (st.SetPause? && st.name == n && c.Some? && c' == Some(c.value.(spec := c.value.spec.(pause := st.pause))))
    || ((st.PutFinalizer? || st.DropFinalizer?) && st.target.ClusterObject? && st.name == n && c.Some?
        && (if c'.None? then c.value.meta.deleting
            else c'.value == c.value.(meta := c'.value.meta) && Refinalized(c.value.meta, c'.value.meta)))
    || (st.RequestDelete? && st.target.ClusterObject? && st.name == n && c.Some?
        && (if c'.None? then c.value.meta.finalizers == []
            else c'.value == c.value.(meta := c'.value.meta) && Marked(c.value.meta, c'.value.meta)))
  }

  lemma ClusterSteps(s: State, st: Step, n: string)
    ensures ClusterStep(s, st, n, Next(s, st))
  {
    hide DoReconcileRestore, DoFinishRestore, DoReconcileBackup, DoFinishBackup, Mirror, DoFire, DoPurge, Apply,
         Refinalize, DoRequestDelete, T.BuildCluster, T.Validate, ActiveRestore;
  }

  /** Only a purge adds to the purged data, and identities are never given out twice. */
  lemma HistoryGrows(s: State, st: Step)
    ensures var s' := Next(s, st);
            && s.nextUid <= s'.nextUid
            && (s'.purged == s.purged
                || (st.Purge? && PurgeEnabled(s, st.name) && s'.purged == s.purged + {s.opBackups[st.name].meta.uid}))
  {
    hide DoReconcileRestore, DoFinishRestore, DoFinishInstance, Reconcile, Apply, Refinalize, DoRequestDelete,
         SyncBackup, CleanupBackup, Mirror, SyncRestore, CleanupRestore, OpBackupCase, CleanupCase;
    if !TouchesBackups(st) { BackupsFrame(s, st); }
  }
}
