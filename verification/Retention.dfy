/** The deletion policy of a Backup: under Retain the operator never gets to purge
    the data, under Delete the operator backup never goes without a purge. */
module Retention {
  import opened Kube
  import opened Protocol
  import opened Effects

  // -------------------------------------------------------------------- Retain

  /** Only CleanupBackup asks for the deletion of operator backup n, and whenever
      it is called the policy is Retain. */
  predicate RetainedBy(s: State, st: Step, n: string) {
    && !(st.RequestDelete? && st.target.BackupObject? && st.name == n)
    && (st.FinishBackup? && st.name == n && n in s.backups && s.backups[n].meta.deleting ==> s.backups[n].retain)
  }

  lemma RetainStep(s: State, st: Step, n: string)
    requires RetainedBy(s, st, n) && !PurgeEnabled(s, n)
    ensures !PurgeEnabled(Next(s, st), n)
  {
    OpBackupSteps(s, st, n);
    hide Next, SyncBackup, CleanupBackup;
  }

  /** Retention safety over all runs. Calls may fail or crash anywhere, also
      between stripping the finalizer and requesting the deletion. */
  lemma {:induction false} RetainNeverPurges(tr: seq<State>, steps: seq<Step>, n: string, i: nat)
    requires IsRun(tr, steps) && i <= |steps| && !PurgeEnabled(tr[0], n)
    requires forall j :: 0 <= j < |steps| ==> RetainedBy(tr[j], steps[j], n)
    ensures !PurgeEnabled(tr[i], n)
  {
    hide Next;
    if i > 0 {
      RetainNeverPurges(tr, steps, n, i - 1);
      RetainStep(tr[i - 1], steps[i - 1], n);
    }
  }

  /** An error-free CleanupBackup of a finalized operator backup opens the way to
      the purge if and only if the policy is Delete. */
  lemma PolicyDecidesPurge(s: State, n: string, k: nat, saved: bool)
    requires n in s.backups && s.backups[n].meta.deleting && k >= 3
    requires n in s.opBackups && DELETE_BACKUP in s.opBackups[n].meta.finalizers
    ensures PurgeEnabled(Next(s, FinishBackup(n, k, saved)), n) <==> !s.backups[n].retain
  {
  }

  // -------------------------------------------------------------------- Delete

  /** Operator backup u is still there under its finalizer, or its data is gone. */
  predicate PurgePending(s: State, n: string, u: nat) {
    || (n in s.opBackups && s.opBackups[n].meta.uid == u && DELETE_BACKUP in s.opBackups[n].meta.finalizers)
    || u in s.purged
  }

  /** An error-free SyncBackup of a runtime-managed Backup under the Delete policy
      puts the finalizer in place. */
  lemma SyncSetsFinalizer(s: State, n: string, k: nat)
    requires n in s.backups && s.backups[n].schedule == "" && !s.backups[n].retain
    requires SyncBackup(s, n, k).out.Report? && n in SyncBackup(s, n, k).s.opBackups
    ensures DELETE_BACKUP in SyncBackup(s, n, k).s.opBackups[n].meta.finalizers
  {
    hide SyncBackup;
    assert OpBackupCase(s, n, SyncBackup(s, n, k));
  }

  lemma DeleteStep(s: State, st: Step, n: string, u: nat)
    requires PurgePending(s, n, u) && (n in s.backups ==> !s.backups[n].retain)
    ensures PurgePending(Next(s, st), n, u)
  {
    hide Next, OpBackupStep, PurgePending;
    OpBackupSteps(s, st, n);
    HistoryGrows(s, st);
    if n in s.opBackups && DELETE_BACKUP in s.opBackups[n].meta.finalizers
       && (st.PutFinalizer? || st.DropFinalizer?) && st.target.BackupObject? && st.name == n {
      KeepsFinalizer(s, st, n);
    }
    DeleteAfter(s, st, Next(s, st), n, u);
  }

  lemma DeleteAfter(s: State, st: Step, s': State, n: string, u: nat)
    requires PurgePending(s, n, u) && (n in s.backups ==> !s.backups[n].retain)
    requires OpBackupStep(s, st, n, s') && s.purged <= s'.purged
    requires n in s.opBackups && DELETE_BACKUP in s.opBackups[n].meta.finalizers
             && (st.PutFinalizer? || st.DropFinalizer?) && st.target.BackupObject? && st.name == n ==>
               n in s'.opBackups && DELETE_BACKUP in s'.opBackups[n].meta.finalizers
    ensures PurgePending(s', n, u)
  {
    hide SyncBackup, CleanupBackup;
  }

  /** Dropping other finalizers leaves the delete-backup finalizer in place. */
  lemma KeepsFinalizer(s: State, st: Step, n: string)
    requires n in s.opBackups && DELETE_BACKUP in s.opBackups[n].meta.finalizers
    requires (st.PutFinalizer? || st.DropFinalizer?) && st.target.BackupObject? && st.name == n
    ensures n in Next(s, st).opBackups && DELETE_BACKUP in Next(s, st).opBackups[n].meta.finalizers
  {
  }

  /** Under the Delete policy, once SyncBackup has set the finalizer the operator
      backup disappears only after the operator purged its data. */
  lemma {:induction false} DeleteNeverSkipsPurge(tr: seq<State>, steps: seq<Step>, n: string, u: nat, i: nat)
    requires IsRun(tr, steps) && i <= |steps| && PurgePending(tr[0], n, u)
    requires forall j :: 0 <= j < |steps| && n in tr[j].backups ==> !tr[j].backups[n].retain
    ensures u !in tr[i].purged ==> n in tr[i].opBackups && tr[i].opBackups[n].meta.uid == u
    ensures PurgePending(tr[i], n, u)
  {
    hide Next;
    if i > 0 {
      DeleteNeverSkipsPurge(tr, steps, n, u, i - 1);
      DeleteStep(tr[i - 1], steps[i - 1], n, u);
    }
  }
}
