/** What a call reports and what it leaves behind, spelled out in the terms of the
    operator's objects. */
module CallResults {
  import opened Kube
  import opened Instances
  import opened Protocol
  import opened Effects
  import T = Translation

  // ------------------------------------------------------------------ reports

  /** The report for an operator object in this state. */
  predicate Mirrored(out: Outcome, status: OpState, completedAt: Option<nat>) {
    && out.Report? && out.started
    && (out.state == Failed <==> status == OpFailed || status == OpError)
    && (out.state == Succeeded <==> status == OpSucceeded)
    && (out.state == Running <==> status == OpStarting || status == OpRunning)
    && (out.state == Pending <==> status == OpNew)
    && out.completedAt == (if status == OpSucceeded then completedAt else None)
  }

  predicate Plain(out: Outcome, state: ExecState) {
    out.Report? && out.state == state && !out.started && out.completedAt.None?
  }

  /** The storage is registered on the cluster of the Backup's Instance. */
  predicate Registered(s: State, b: Backup) {
    && b.instance in s.clusters
    && match s.clusters[b.instance].spec.backup
       case None => false
       case Some(settings) => b.storage in settings.storages
  }

  predicate KnownType(p: BackupParameters) {
    match p
    case NoBackupParameters => true
    case MalformedBackup => false
    case BackupType(name) => name == "" || name == "full" || name == "incremental"
  }

  /** The report of an undisturbed SyncBackup, in every case. */
  lemma BackupReport(s: State, n: string, k: nat)
    requires n in s.backups && !BackupConflict(s, n) && k >= 6
    ensures var b, out := s.backups[n], SyncBackup(s, n, k).out;
            if n in s.opBackups then Mirrored(out, s.opBackups[n].status, s.opBackups[n].completedAt)
            else if b.schedule != "" || !Registered(s, b) then Plain(out, Pending)
            else if !KnownType(b.parameters) then Plain(out, Failed)
            else Mirrored(out, OpNew, None)
  {
    hide SyncBackup, BackupConflict, SetControllerReference;
    var r := SyncBackup(s, n, k);
    assert OpBackupCase(s, n, r);
    assert r.out != Failure;
  }

  /** The only way an undisturbed SyncBackup fails: the first controller is another
      object, or an object being deleted would get a finalizer it does not have. */
  lemma BackupFails(s: State, n: string, k: nat)
    requires n in s.backups && k >= 6
    ensures SyncBackup(s, n, k).out == Failure <==>
              && n in s.opBackups && s.backups[n].schedule == ""
              && var m := s.opBackups[n].meta;
                 || (exists i :: FirstController(m.owners, i)
                                 && !(m.owners[i].kind == BackupKind && m.owners[i].name == n))
                 || (m.deleting && !s.backups[n].retain && "percona.com/delete-backup" !in m.finalizers)
  {
    hide SyncBackup, OpBackupCase;
    if n in s.opBackups {
      var m := s.opBackups[n].meta;
      OnlyFirstController(m.owners);
      if !s.backups[n].retain && DELETE_BACKUP !in m.finalizers {
        assert DELETE_BACKUP in WithPolicy(m.finalizers, false);
      }
    }
  }

  predicate FirstController(owners: seq<OwnerRef>, i: int) {
    0 <= i < |owners| && owners[i].controller && forall j :: 0 <= j < i ==> !owners[j].controller
  }

  lemma OnlyFirstController(owners: seq<OwnerRef>)
    ensures ControllerOf(owners).None? ==> forall i :: !FirstController(owners, i)
    ensures ControllerOf(owners).Some? ==>
              exists i :: FirstController(owners, i) && owners[i] == ControllerOf(owners).value
    ensures forall i, j :: FirstController(owners, i) && FirstController(owners, j) ==> i == j
  {
  }

  /** A Backup the Restore can use. */
  predicate UsableSource(s: State, r: Restore) {
    && r.source.FromBackup? && r.source.name != "" && r.source.name in s.backups
    && s.backups[r.source.name].state != Failed && s.backups[r.source.name].instance == r.instance
  }

  predicate AwaitedSource(s: State, r: Restore) {
    r.source.FromBackup? && r.source.name != "" && r.source.name !in s.backups
  }

  /** The report of an undisturbed SyncRestore, in every case. */
  lemma RestoreReport(s: State, n: string, k: nat)
    requires n in s.restores && !RestoreConflict(s, n) && k >= 6
    ensures var r, out := s.restores[n], SyncRestore(s, n, k).out;
            if AwaitedSource(s, r) then Plain(out, Pending)
            else if !UsableSource(s, r) then Plain(out, Failed)
            else if n in s.opRestores then Mirrored(out, s.opRestores[n].status, s.opRestores[n].completedAt)
            else Mirrored(out, OpNew, None)
  {
    hide SyncRestore, RestoreConflict, SetControllerReference;
    var out := SyncRestore(s, n, k);
    assert OpRestoreCase(s, n, out);
    assert out.out != Failure;
  }

  lemma RestoreFails(s: State, n: string, k: nat)
    requires n in s.restores && k >= 6
    ensures SyncRestore(s, n, k).out == Failure <==>
              && n in s.opRestores && UsableSource(s, s.restores[n])
              && var owners := s.opRestores[n].meta.owners;
                 exists i :: FirstController(owners, i) && !(owners[i].kind == RestoreKind && owners[i].name == n)
  {
    hide SyncRestore, OpRestoreCase;
    if n in s.opRestores { OnlyFirstController(s.opRestores[n].meta.owners); }
  }

  // ------------------------------------------------------- what is left behind

  /** When an undisturbed SyncBackup creates an operator backup, and which. */
  lemma BackupCreated(s: State, n: string, k: nat)
    requires n in s.backups && n !in s.opBackups && k >= 6
    ensures var b, s' := s.backups[n], SyncBackup(s, n, k).s;
            && (n in s'.opBackups <==> b.schedule == "" && Registered(s, b) && KnownType(b.parameters))
            && (n in s'.opBackups ==>
                  var op := s'.opBackups[n];
                  && op.cluster == b.instance && op.storage == b.storage
                  && op.btype == (if b.parameters == BackupType("incremental") then "incremental" else "full")
                  && op.meta.finalizers == (if b.retain then [] else ["percona.com/delete-backup"])
                  && op.meta.owners == [OwnerRef(BackupKind, n, b.meta.uid, true)]
                  && op.meta.labels == map[] && !op.meta.deleting && op.status == OpNew)
  {
    hide SyncBackup;
    var r := SyncBackup(s, n, k);
    assert OpBackupCase(s, n, r) && r.out != Failure;
    assert Get(r.s.opBackups, n).Some? <==> n in r.s.opBackups;
  }

  lemma RestoreCreated(s: State, n: string, k: nat)
    requires n in s.restores && n !in s.opRestores && k >= 6
    ensures var r, s' := s.restores[n], SyncRestore(s, n, k).s;
            && (n in s'.opRestores <==> UsableSource(s, r))
            && (n in s'.opRestores ==>
                  var op := s'.opRestores[n];
                  && op.cluster == r.instance && op.backup == r.source.name
                  && op.meta.owners == [OwnerRef(RestoreKind, n, r.meta.uid, true)]
                  && op.meta.finalizers == [] && op.meta.labels == map[] && !op.meta.deleting && op.status == OpNew)
  {
    hide SyncRestore;
    var r := SyncRestore(s, n, k);
    assert OpRestoreCase(s, n, r) && r.out != Failure;
    assert Get(r.s.opRestores, n).Some? <==> n in r.s.opRestores;
  }

  /** What an undisturbed SyncBackup makes of an operator backup it finds: the
      delete-backup finalizer follows the policy, the Backup controls it, and
      everything else stays. */
  lemma BackupPatched(s: State, n: string, k: nat)
    requires n in s.backups && s.backups[n].schedule == "" && n in s.opBackups && !BackupConflict(s, n) && k >= 6
    ensures var s', was := SyncBackup(s, n, k).s, s.opBackups[n];
            if n !in s'.opBackups then was.meta.deleting
            else
              var now := s'.opBackups[n];
              && now == was.(meta := was.meta.(finalizers := now.meta.finalizers, owners := now.meta.owners))
              && ("percona.com/delete-backup" in now.meta.finalizers <==> !s.backups[n].retain)
              && (forall f :: f != "percona.com/delete-backup" ==>
                    (f in now.meta.finalizers <==> f in was.meta.finalizers))
              && OwnerRef(BackupKind, n, s.backups[n].meta.uid, true) in now.meta.owners
              && (forall o :: o in was.meta.owners && !(o.kind == BackupKind && o.name == n) ==> o in now.meta.owners)
  {
    hide SyncBackup, SetControllerReference;
    var r := SyncBackup(s, n, k);
    assert OpBackupCase(s, n, r) && r.out != Failure;
    assert Get(r.s.opBackups, n).Some? <==> n in r.s.opBackups;
  }

  /** And of an operator restore: only its owner references may change. */
  lemma RestorePatched(s: State, n: string, k: nat)
    requires n in s.restores && UsableSource(s, s.restores[n]) && n in s.opRestores && !RestoreConflict(s, n) && k >= 6
    ensures var s', was := SyncRestore(s, n, k).s, s.opRestores[n];
            if n !in s'.opRestores then was.meta.deleting && was.meta.finalizers == []
            else
              var now := s'.opRestores[n];
              && now == was.(meta := was.meta.(owners := now.meta.owners))
              && OwnerRef(RestoreKind, n, s.restores[n].meta.uid, true) in now.meta.owners
              && (forall o :: o in was.meta.owners && !(o.kind == RestoreKind && o.name == n) ==> o in now.meta.owners)
  {
    hide SyncRestore, SetControllerReference;
    var r := SyncRestore(s, n, k);
    assert OpRestoreCase(s, n, r) && r.out != Failure;
    assert Get(r.s.opRestores, n).Some? <==> n in r.s.opRestores;
  }

  /** An undisturbed call leaves the Instance's name in the label, and the other labels
      alone. */
  lemma LabelsWritten(s: State, n: string, k: nat)
    requires k >= 2
    ensures n in s.backups ==>
              SyncBackup(s, n, k).s.backups[n].meta.labels
              == s.backups[n].meta.labels["instanceName" := s.backups[n].instance]
    ensures n in s.restores ==>
              SyncRestore(s, n, k).s.restores[n].meta.labels
              == s.restores[n].meta.labels["instanceName" := s.restores[n].instance]
  {
    if n in s.backups { BackupLabelled(s, n, k); }
    if n in s.restores { RestoreLabelledToo(s, n, k); }
    hide SyncBackup, SyncRestore;
  }

  lemma BackupLabelled(s: State, n: string, k: nat)
    requires n in s.backups && k >= 2
    ensures SyncBackup(s, n, k).s.backups[n].meta.labels
         == s.backups[n].meta.labels["instanceName" := s.backups[n].instance]
  {
    hide SyncLabelled, OpBackupCase, BackupConflict, OnlyAt;
    var labels := s.backups[n].meta.labels;
    if Labelled(s.backups[n].meta, s.backups[n].instance) {
      assert labels == labels["instanceName" := s.backups[n].instance];
    }
  }

  lemma RestoreLabelledToo(s: State, n: string, k: nat)
    requires n in s.restores && k >= 2
    ensures SyncRestore(s, n, k).s.restores[n].meta.labels
         == s.restores[n].meta.labels["instanceName" := s.restores[n].instance]
  {
    hide RestoreLabelled, OpRestoreCase, RestoreConflict, OnlyAt;
    var labels := s.restores[n].meta.labels;
    if Labelled(s.restores[n].meta, s.restores[n].instance) {
      assert labels == labels["instanceName" := s.restores[n].instance];
    }
  }

  /** What the scan looks for. */
  lemma ScanExact(s: State, instance: string)
    ensures ActiveRestore(s, instance) <==>
              exists r :: r in s.restores && s.restores[r].instance == instance && !s.restores[r].meta.deleting
                          && s.restores[r].state != Succeeded && s.restores[r].state != Failed
  {
    if r :| r in s.restores && s.restores[r].instance == instance && !s.restores[r].meta.deleting
            && s.restores[r].state != Succeeded && s.restores[r].state != Failed {
      assert Active(s.restores[r], instance);
    }
  }

  // ------------------------------------------------------------ over whole runs

  /** Where a Backup's state comes from: it is Succeeded only after its operator backup
      had succeeded, and Failed only after that had failed or the parameters were
      refused. */
  predicate Justified(s: State, n: string, state: ExecState) {
    n in s.backups &&
    match state
    case Succeeded => n in s.opBackups && s.opBackups[n].status == OpSucceeded
    case Failed =>
      if n in s.opBackups then s.opBackups[n].status == OpFailed || s.opBackups[n].status == OpError
      else !KnownType(s.backups[n].parameters)
    case _ => true
  }

  lemma ReportJustified(s: State, n: string, k: nat)
    requires n in s.backups && SyncBackup(s, n, k).out.Report?
    ensures Justified(s, n, SyncBackup(s, n, k).out.state)
  {
    hide SyncBackup, StorageRegistered;
    assert OpBackupCase(s, n, SyncBackup(s, n, k));
  }

  lemma {:induction false} StateJustified(tr: seq<State>, steps: seq<Step>, n: string, i: nat)
    requires IsRun(tr, steps) && i <= |steps| && n !in tr[0].backups
    requires n in tr[i].backups && Terminal(tr[i].backups[n].state)
    ensures exists h :: 0 <= h < i && Justified(tr[h], n, tr[i].backups[n].state)
  {
    hide Next, Justified;
    var s, st, state := tr[i - 1], steps[i - 1], tr[i].backups[n].state;
    BackupSteps(s, st, n);
    if n in s.backups && s.backups[n].state == state {
      StateJustified(tr, steps, n, i - 1);
    } else {
      JustifiedStep(s, st, tr[i], n);
    }
    hide BackupStep;
  }

  lemma JustifiedStep(s: State, st: Step, s': State, n: string)
    requires BackupStep(s, st, n, s') && n in s'.backups && Terminal(s'.backups[n].state)
    requires n in s.backups ==> s.backups[n].state != s'.backups[n].state
    ensures Justified(s, n, s'.backups[n].state)
  {
    if st.ReconcileBackup? && st.name == n && n in s.backups && SyncBackup(s, n, st.k).out.Report? {
      ReportJustified(s, n, st.k);
    }
    hide SyncBackup, Justified, CleanupBackup;
  }

  /** The same for Restores. */
  predicate RestoreJustified(s: State, n: string, state: ExecState) {
    n in s.restores &&
    match state
    case Succeeded => n in s.opRestores && s.opRestores[n].status == OpSucceeded
    case Failed =>
      || (n in s.opRestores && (s.opRestores[n].status == OpFailed || s.opRestores[n].status == OpError))
      || (!UsableSource(s, s.restores[n]) && !AwaitedSource(s, s.restores[n]))
    case _ => true
  }

  lemma RestoreReportJustified(s: State, n: string, k: nat)
    requires n in s.restores && SyncRestore(s, n, k).out.Report?
    ensures RestoreJustified(s, n, SyncRestore(s, n, k).out.state)
  {
    hide SyncRestore, SetControllerReference;
    assert OpRestoreCase(s, n, SyncRestore(s, n, k));
  }

  lemma {:induction false} RestoreStateJustified(tr: seq<State>, steps: seq<Step>, n: string, i: nat)
    requires IsRun(tr, steps) && i <= |steps| && n !in tr[0].restores
    requires n in tr[i].restores && Terminal(tr[i].restores[n].state)
    ensures exists h :: 0 <= h < i && RestoreJustified(tr[h], n, tr[i].restores[n].state)
  {
    hide Next, RestoreJustified;
    var s, st, state := tr[i - 1], steps[i - 1], tr[i].restores[n].state;
    RestoreSteps(s, st, n);
    if n in s.restores && s.restores[n].state == state {
      RestoreStateJustified(tr, steps, n, i - 1);
    } else {
      RestoreJustifiedStep(s, st, tr[i], n);
    }
    hide RestoreStep;
  }

  lemma RestoreJustifiedStep(s: State, st: Step, s': State, n: string)
    requires RestoreStep(s, st, n, s') && n in s'.restores && Terminal(s'.restores[n].state)
    requires n in s.restores ==> s.restores[n].state != s'.restores[n].state
    ensures RestoreJustified(s, n, s'.restores[n].state)
  {
    if st.ReconcileRestore? && st.name == n && n in s.restores && SyncRestore(s, n, st.k).out.Report? {
      RestoreReportJustified(s, n, st.k);
    }
    hide SyncRestore, RestoreJustified;
  }
}
