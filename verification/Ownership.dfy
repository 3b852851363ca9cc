/** Mirror and SyncBackup never own each other's object in both directions. */
module Ownership {
  import opened Kube
  import opened Protocol
  import opened Effects

  predicate OwnedByOpBackup(m: Meta) {
    exists i :: 0 <= i < |m.owners| && m.owners[i].kind == OpBackupKind
  }

  /** The labels the operator puts on a backup it created from a schedule with a
      non-empty name. */
  predicate CronLabels(m: Meta) {
    var ancestor := LabelOf(m, LABEL_ANCESTOR);
    ancestor == "" || (|ancestor| > 6 && ancestor[5] == '-')
  }

  /** Backup references on operator backup n point to the Backup n that manages it,
      and a Backup owned by an operator backup came from a schedule. */
  predicate Directed(s: State, n: string) {
    ManagedReferences(s, n) && CronNamed(s, n) && ScheduledOwned(s, n)
  }

  predicate ManagedReferences(s: State, n: string) {
    n in s.opBackups ==> forall o :: o in s.opBackups[n].meta.owners && o.kind == BackupKind ==>
      n in s.backups && s.backups[n].schedule == "" && o == BackupOwner(n, s.backups[n])
  }

  predicate CronNamed(s: State, n: string) {
    n in s.opBackups && LabelOf(s.opBackups[n].meta, LABEL_TYPE) == CRON ==> n != "" && CronLabels(s.opBackups[n].meta)
  }

  predicate ScheduledOwned(s: State, n: string) {
    n in s.backups && OwnedByOpBackup(s.backups[n].meta) ==> s.backups[n].schedule != ""
  }

  /** Schedules on clusters have names. */
  predicate NamedSchedules(s: State) {
    forall c :: c in s.clusters && s.clusters[c].spec.backup.Some? ==>
      forall x :: x in s.clusters[c].spec.backup.value.schedules ==> x.name != ""
  }

  /** A cron backup with the operator's labels gets a schedule name, whatever the
      five-character prefix. */
  lemma ScheduleNameNonEmpty(n: string, m: Meta, hash: string)
    requires n != "" && CronLabels(m) && |hash| == 5
    ensures ScheduledBackupName(n, m, hash).Some? ==> ScheduledBackupName(n, m, hash).value != ""
  {
  }

  lemma FiredLabels(s: State, st: Step, n: string)
    requires st.FireSchedule? && st.name == n && n !in s.opBackups && NamedSchedules(s)
    ensures n in Next(s, st).opBackups ==>
              n != "" && CronLabels(Next(s, st).opBackups[n].meta) && Next(s, st).opBackups[n].meta.owners == []
  {
  }

  lemma DirectedStep(s: State, st: Step, n: string)
    requires Directed(s, n) && NamedSchedules(s)
    ensures Directed(Next(s, st), n)
  {
    hide Next, NamedSchedules, ManagedReferences, CronNamed, ScheduledOwned;
    ManagedReferencesStep(s, st, n);
    CronNamedStep(s, st, n);
    ScheduledOwnedStep(s, st, n);
  }

  lemma ManagedReferencesStep(s: State, st: Step, n: string)
    requires ManagedReferences(s, n)
    ensures ManagedReferences(Next(s, st), n)
  {
    hide Next, ManagedReferences, OpBackupStep, BackupStep;
    OpBackupSteps(s, st, n);
    BackupSteps(s, st, n);
    ManagedReferencesAfter(s, st, Next(s, st), n);
  }

  /** Only SyncBackup adds a reference, and only to a Backup that the runtime manages. */
  predicate OldOrManaged(s: State, st: Step, n: string, o: OwnerRef) {
    || (n in s.opBackups && o in s.opBackups[n].meta.owners)
    || (n in s.backups && s.backups[n].schedule == "" && o == BackupOwner(n, s.backups[n]) && st.ReconcileBackup?)
  }

  lemma OwnersAfter(s: State, st: Step, s': State, n: string)
    requires OpBackupStep(s, st, n, s')
    ensures n in s'.opBackups ==> forall o :: o in s'.opBackups[n].meta.owners ==> OldOrManaged(s, st, n, o)
  {
    hide SyncBackup, CleanupBackup, Reported, StorageRegistered;
  }

  lemma ManagedReferencesAfter(s: State, st: Step, s': State, n: string)
    requires ManagedReferences(s, n) && OpBackupStep(s, st, n, s') && BackupStep(s, st, n, s')
    ensures ManagedReferences(s', n)
  {
    OwnersAfter(s, st, s', n);
    hide SyncBackup, CleanupBackup, Mirror, OpBackupStep;
  }

  lemma CronNamedStep(s: State, st: Step, n: string)
    requires CronNamed(s, n) && NamedSchedules(s)
    ensures CronNamed(Next(s, st), n)
  {
    OpBackupSteps(s, st, n);
    if st.FireSchedule? && st.name == n && n !in s.opBackups { FiredLabels(s, st, n); }
    CronNamedAfter(s, st, Next(s, st), n);
    hide Next, CronNamed, OpBackupStep, NamedSchedules, CronLabels;
  }

  /** Only firing a schedule puts these labels on an operator backup. */
  lemma CronNamedAfter(s: State, st: Step, s': State, n: string)
    requires CronNamed(s, n) && OpBackupStep(s, st, n, s')
    requires st.FireSchedule? && st.name == n && n !in s.opBackups && n in s'.opBackups ==>
               n != "" && CronLabels(s'.opBackups[n].meta)
    ensures CronNamed(s', n)
  {
    hide SyncBackup, CleanupBackup, Reported, StorageRegistered;
  }

  lemma ScheduledOwnedStep(s: State, st: Step, n: string)
    requires CronNamed(s, n) && ScheduledOwned(s, n)
    ensures ScheduledOwned(Next(s, st), n)
  {
    BackupSteps(s, st, n);
    if n in s.opBackups && st.MirrorBackup? && |st.hash| == 5 && Mirror(s, n, st.hash).Some? {
      ScheduleNameNonEmpty(n, s.opBackups[n].meta, st.hash);
    }
    hide Next, SyncBackup, CleanupBackup, ScheduledBackupName, CronLabels;
  }

  lemma {:induction false} RunDirected(tr: seq<State>, steps: seq<Step>, n: string, i: nat)
    requires IsRun(tr, steps) && i <= |steps| && Directed(tr[0], n)
    requires forall j :: 0 <= j < |steps| ==> NamedSchedules(tr[j])
    ensures Directed(tr[i], n)
  {
    hide Next, Directed, NamedSchedules;
    if i > 0 {
      RunDirected(tr, steps, n, i - 1);
      DirectedStep(tr[i - 1], steps[i - 1], n);
    }
  }

  /** No ownership cycle in any reachable state. */
  lemma NoOwnershipCycle(tr: seq<State>, steps: seq<Step>, n: string, i: nat)
    requires IsRun(tr, steps) && i <= |steps| && n !in tr[0].opBackups && n !in tr[0].backups
    requires forall j :: 0 <= j < |steps| ==> NamedSchedules(tr[j])
    ensures n in tr[i].opBackups && ControlledByBackup(tr[i].opBackups[n].meta) ==>
              n in tr[i].backups && tr[i].backups[n].schedule == "" && !OwnedByOpBackup(tr[i].backups[n].meta)
    ensures n in tr[i].backups && OwnedByOpBackup(tr[i].backups[n].meta) ==>
              tr[i].backups[n].schedule != "" && (n in tr[i].opBackups ==> !ControlledByBackup(tr[i].opBackups[n].meta))
  {
    hide Next;
    RunDirected(tr, steps, n, i);
    if n in tr[i].opBackups {
      var owners := tr[i].opBackups[n].meta.owners;
      forall j | 0 <= j < |owners| ensures owners[j] in owners {}
    }
  }

  /** SyncBackup leaves the operator backup of a scheduled Backup alone; it writes
      one only for Backups that the runtime manages. */
  lemma ScheduledNeverWritten(s: State, n: string, k: nat)
    requires n in s.backups && s.backups[n].schedule != ""
    ensures SyncBackup(s, n, k).s.opBackups == s.opBackups
  {
    hide SyncLabelled;
  }
}
