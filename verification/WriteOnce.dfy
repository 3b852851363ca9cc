/** The spec of an operator backup never changes after SyncBackup created it, and
    repeating a reconcile with nothing changed has no effect. */
module WriteOnce {
  import opened Kube
  import opened Protocol
  import opened Effects
  import T = Translation

  /** The operator backup with identity u, as long as there is one, has this spec. */
  predicate SpecIs(s: State, n: string, u: nat, btype: string, cluster: string, storage: string) {
    && u < s.nextUid
    && (n in s.opBackups && s.opBackups[n].meta.uid == u ==>
          s.opBackups[n].btype == btype && s.opBackups[n].cluster == cluster && s.opBackups[n].storage == storage)
  }

  lemma SpecStep(s: State, st: Step, n: string, u: nat, btype: string, cluster: string, storage: string)
    requires SpecIs(s, n, u, btype, cluster, storage)
    ensures SpecIs(Next(s, st), n, u, btype, cluster, storage)
  {
    OpBackupSteps(s, st, n);
    HistoryGrows(s, st);
    hide Next, SyncBackup, CleanupBackup, Mirror, Reported, StorageRegistered;
  }

  lemma {:induction false} SpecRun(tr: seq<State>, steps: seq<Step>, n: string, u: nat, btype: string, cluster: string,
                                   storage: string, i: nat)
    requires IsRun(tr, steps) && i <= |steps| && SpecIs(tr[0], n, u, btype, cluster, storage)
    ensures SpecIs(tr[i], n, u, btype, cluster, storage)
  {
    hide Next, SpecIs;
    if i > 0 {
      SpecRun(tr, steps, n, u, btype, cluster, storage, i - 1);
      SpecStep(tr[i - 1], steps[i - 1], n, u, btype, cluster, storage);
    }
  }

  /** Write-once: from the SyncBackup that creates an operator backup on, through
      any steps and any edits of the Backup, its spec is what that call asked for. */
  lemma SpecWriteOnce(tr: seq<State>, steps: seq<Step>, n: string, k: nat, saved: bool, i: nat)
    requires IsRun(tr, steps) && 1 <= i <= |steps| && steps[0] == ReconcileBackup(n, k, saved)
    requires n in tr[0].backups && !tr[0].backups[n].meta.deleting
    requires n !in tr[0].opBackups && n in tr[1].opBackups
    requires n in tr[i].opBackups && tr[i].opBackups[n].meta.uid == tr[1].opBackups[n].meta.uid
    ensures var b := tr[0].backups[n];
            && Some(tr[i].opBackups[n].btype) == T.ResolveBackupType(b.parameters)
            && tr[i].opBackups[n].cluster == b.instance && tr[i].opBackups[n].storage == b.storage
  {
    var op := tr[1].opBackups[n];
    OpBackupSteps(tr[0], steps[0], n);
    assert Get(tr[1].opBackups, n) == Some(op);
    assert tr[1..][0] == tr[1];
    SpecRun(tr[1..], steps[1..], n, op.meta.uid, op.btype, op.cluster, op.storage, i - 1) by {
      hide SyncBackup;
      forall j | 0 <= j < |steps[1..]| ensures tr[1..][j + 1] == Next(tr[1..][j], steps[1..][j]) {
        assert tr[j + 2] == Next(tr[j + 1], steps[j + 1]);
      }
    }
  }

  /** Why that is so: the patch is made from a whole object of which only metadata was
      changed, so its spec part is empty. */
  lemma PatchSpecEmpty(seen: OpBackup, wanted: Meta, now: OpBackup)
    ensures var p := PatchBetween(seen, seen.(meta := wanted));
            && p.btype.None? && p.cluster.None? && p.storage.None?
            && Merged(now, p) == now.(meta := Merged(now, p).meta)
  {
  }

  /** So even a copy that is out of date leaves the spec as the server holds it. */
  lemma StaleCopyLeavesSpec(s: State, n: string, seen: OpBackup, k: nat)
    requires n in s.backups
    ensures var s' := AdoptSeeing(s, n, seen, k).s;
            && s' == s.(opBackups := s'.opBackups) && OnlyAt(s.opBackups, s'.opBackups, n)
            && (n in s'.opBackups ==>
                  n in s.opBackups && s'.opBackups[n] == s.opBackups[n].(meta := s'.opBackups[n].meta))
  {
    var b := s.backups[n];
    if b.schedule == "" && n in s.opBackups {
      var owners := SetControllerReference(seen.meta.owners, BackupOwner(n, b));
      if owners.Some? {
        var wanted := seen.meta.(finalizers := WithPolicy(seen.meta.finalizers, b.retain), owners := owners.value);
        PatchSpecEmpty(seen, wanted, s.opBackups[n]);
      }
    }
    hide PatchBetween, Merged, SetControllerReference, WithPolicy, ServerWrite;
  }

  // --------------------------------------------------------------- repetition

  /** Patching the same metadata again changes nothing more. */
  lemma AdoptedTwice(n: string, b: Backup, m: Meta)
    requires Adopted(n, b, m).Some? && Adopted(n, b, m).value.Stored?
    ensures Adopted(n, b, Adopted(n, b, m).value.meta) == Some(Adopted(n, b, m).value)
  {
    SetControllerReferenceTwice(m.owners, BackupOwner(n, b));
  }

  /** The patch takes the last finalizer off an operator backup that is being
      deleted, which lets it go. */
  predicate Vanishes(s: State, n: string) {
    n in s.backups && n in s.opBackups && s.backups[n].schedule == ""
    && Adopted(n, s.backups[n], s.opBackups[n].meta) == Some(Removed)
  }

  /** An unhindered call in closed form, for a Backup that carries its label. */
  lemma SyncUnhindered(s: State, n: string, k: nat)
    requires n in s.backups && Labelled(s.backups[n].meta, s.backups[n].instance) && k >= 4
    ensures SyncBackup(s, n, k) == SyncBackup(s, n, 4) && SyncBackup(s, n, 4).s.backups == s.backups
  {
  }

  lemma RepeatLabelled(s: State, n: string)
    requires n in s.backups && Labelled(s.backups[n].meta, s.backups[n].instance) && !Vanishes(s, n)
    ensures var once := SyncBackup(s, n, 4);
            SyncBackup(once.s, n, 4) == once
  {
    var b, once := s.backups[n], SyncBackup(s, n, 4);
    if n in s.opBackups {
      var adopted := Adopted(n, b, s.opBackups[n].meta);
      if b.schedule == "" && adopted.Some? && adopted.value.Stored? {
        AdoptedTwice(n, b, s.opBackups[n].meta);
        hide Adopted;
      }
    } else if n in once.s.opBackups {
      AdoptedNew(n, b, once.s.opBackups[n].btype, s.nextUid);
    }
  }

  lemma LabelledRepeats(s: State, n: string)
    requires n in s.backups && Labelled(s.backups[n].meta, s.backups[n].instance)
    ensures var once := SyncBackup(s, n, 4);
            SyncBackup(once.s, n, 4) == once <==> !Vanishes(s, n)
  {
    var once := SyncBackup(s, n, 4);
    if Vanishes(s, n) {
      assert n !in once.s.opBackups && once.out.Report? && once.out.started;
      var twice := SyncBackup(once.s, n, 4);
      assert OpBackupCase(once.s, n, twice);
      assert twice.out == once.out ==> Get(twice.s.opBackups, n).Some?;
    } else {
      RepeatLabelled(s, n);
    }
    hide SyncBackup;
  }

  /** A repeated error-free SyncBackup leaves the store as the first one left it
      and returns the same status, if and only if the first one did not let a
      deleted operator backup go. */
  lemma SyncBackupRepeats(s: State, n: string, k: nat)
    requires n in s.backups && k >= 6
    ensures var once := SyncBackup(s, n, k);
            SyncBackup(once.s, n, k) == once <==> !Vanishes(s, n)
  {
    hide SyncBackup, Vanishes, OpBackupCase, BackupConflict, OnlyAt;
    var s1, k1 := s, k;
    if !Labelled(s.backups[n].meta, s.backups[n].instance) {
      s1 := BackupLabels(s, n, k);
      k1 := k - 2;
    }
    SyncUnhindered(s1, n, k1);
    LabelledRepeats(s1, n);
    SyncUnhindered(SyncBackup(s1, n, 4).s, n, k);
  }

  /** The call starts by labelling the Backup. */
  lemma BackupLabels(s: State, n: string, k: nat) returns (s1: State)
    requires n in s.backups && !Labelled(s.backups[n].meta, s.backups[n].instance) && k >= 6
    ensures n in s1.backups && Labelled(s1.backups[n].meta, s1.backups[n].instance)
    ensures SyncBackup(s, n, k) == SyncBackup(s1, n, k - 2)
    ensures Vanishes(s1, n) <==> Vanishes(s, n)
  {
    var b := s.backups[n];
    s1 := s.(backups := s.backups[n := b.(meta := Relabel(b.meta, b.instance))]);
    hide SyncLabelled, OpBackupCase;
  }

  /** In that one case the repetition starts the backup over, exactly when the
      storage is registered and the parameters are valid. */
  lemma VanishedBackupRestarts(s: State, n: string, k: nat)
    requires Vanishes(s, n) && Labelled(s.backups[n].meta, s.backups[n].instance) && k >= 4
    ensures var once := SyncBackup(s, n, k).s;
            && n !in once.opBackups
            && (n in SyncBackup(once, n, k).s.opBackups <==>
                  StorageRegistered(s, s.backups[n]) && T.ResolveBackupType(s.backups[n].parameters).Some?)
  {
  }

  lemma RestoreUnhindered(s: State, n: string, k: nat)
    requires n in s.restores && Labelled(s.restores[n].meta, s.restores[n].instance) && k >= 4
    ensures SyncRestore(s, n, k) == SyncRestore(s, n, 4) && SyncRestore(s, n, 4).s.restores == s.restores
  {
  }

  /** The patch goes to an operator restore that is being deleted with nothing left to
      wait for, which lets it go. */
  predicate RestoreVanishes(s: State, n: string) {
    && n in s.restores && n in s.opRestores && ResolveSource(s, s.restores[n]).None? && !RestoreConflict(s, n)
    && s.opRestores[n].meta.deleting && s.opRestores[n].meta.finalizers == []
  }

  lemma AdoptRestoreTwice(s: State, n: string)
    requires n in s.restores && n in s.opRestores && ResolveSource(s, s.restores[n]).None? && !RestoreVanishes(s, n)
    ensures var once := AdoptOpRestore(s, n, 2);
            && n in once.s.opRestores && ResolveSource(once.s, s.restores[n]).None?
            && AdoptOpRestore(once.s, n, 2) == once
  {
    var r, owners := s.restores[n], s.opRestores[n].meta.owners;
    if SetControllerReference(owners, RestoreOwner(n, r)).Some? {
      SetControllerReferenceTwice(owners, RestoreOwner(n, r));
    }
    hide SetControllerReference, WriteOpRestore, ReportOf, OpRestoreCase;
  }

  lemma RepeatRestoreLabelled(s: State, n: string)
    requires n in s.restores && Labelled(s.restores[n].meta, s.restores[n].instance) && !RestoreVanishes(s, n)
    ensures var once := SyncRestore(s, n, 4);
            SyncRestore(once.s, n, 4) == once
  {
    var r := s.restores[n];
    assert SyncRestore(s, n, 4) == RestoreLabelled(s, n, 4);
    var once := RestoreLabelled(s, n, 4);
    assert SyncRestore(once.s, n, 4) == RestoreLabelled(once.s, n, 4);
    if ResolveSource(s, r).None? && n in s.opRestores {
      assert once == AdoptOpRestore(s, n, 2);
      AdoptRestoreTwice(s, n);
    }
    hide SyncRestore, AdoptOpRestore, ReportOf, OpRestoreCase, RestoreConflict;
  }

  /** After a vanishing the repetition creates the operator restore again. */
  lemma VanishedRestoreRestarts(s: State, n: string)
    requires RestoreVanishes(s, n) && Labelled(s.restores[n].meta, s.restores[n].instance)
    ensures var once := SyncRestore(s, n, 4).s;
            n !in once.opRestores && n in SyncRestore(once, n, 4).s.opRestores
  {
    var once := RestoreLabelled(s, n, 4);
    assert SyncRestore(s, n, 4) == once && once == AdoptOpRestore(s, n, 2);
    assert SyncRestore(once.s, n, 4) == RestoreLabelled(once.s, n, 4);
    hide SyncRestore, OpRestoreCase;
  }

  /** The same for restores: a repeated error-free SyncRestore changes nothing more
      and reports the same, if and only if the first one did not let the operator
      restore go. */
  lemma SyncRestoreRepeats(s: State, n: string, k: nat)
    requires n in s.restores && k >= 6
    ensures var once := SyncRestore(s, n, k);
            SyncRestore(once.s, n, k) == once <==> !RestoreVanishes(s, n)
  {
    hide SyncRestore, RestoreVanishes, OpRestoreCase, RestoreConflict, OnlyAt;
    var s1, k1 := s, k;
    if !Labelled(s.restores[n].meta, s.restores[n].instance) {
      s1 := RestoreLabels(s, n, k);
      k1 := k - 2;
    }
    RestoreUnhindered(s1, n, k1);
    LabelledRestoreRepeats(s1, n);
    RestoreUnhindered(SyncRestore(s1, n, 4).s, n, k);
  }

  /** The call starts by labelling the Restore. */
  lemma RestoreLabels(s: State, n: string, k: nat) returns (s1: State)
    requires n in s.restores && !Labelled(s.restores[n].meta, s.restores[n].instance) && k >= 6
    ensures n in s1.restores && Labelled(s1.restores[n].meta, s1.restores[n].instance)
    ensures SyncRestore(s, n, k) == SyncRestore(s1, n, k - 2)
    ensures RestoreVanishes(s1, n) <==> RestoreVanishes(s, n)
  {
    var r := s.restores[n];
    s1 := s.(restores := s.restores[n := r.(meta := Relabel(r.meta, r.instance))]);
    hide RestoreLabelled, OpRestoreCase;
  }

  lemma LabelledRestoreRepeats(s: State, n: string)
    requires n in s.restores && Labelled(s.restores[n].meta, s.restores[n].instance)
    ensures var once := SyncRestore(s, n, 4);
            SyncRestore(once.s, n, 4) == once <==> !RestoreVanishes(s, n)
  {
    hide SyncRestore, RestoreVanishes;
    if RestoreVanishes(s, n) { VanishedRestoreRestarts(s, n); } else { RepeatRestoreLabelled(s, n); }
  }
}
