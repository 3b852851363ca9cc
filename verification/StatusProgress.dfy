/** Reported states only move forward, and a startup race never turns into a
    permanent failure. */
module StatusProgress {
  import opened Kube
  import opened Protocol
  import opened Effects
  import T = Translation

  function Rank(st: ExecState): nat {
    match st case Unset => 0 case Pending => 0 case Running => 1 case Succeeded => 2 case Failed => 2
  }

  /** Later states are at least as far, and terminal states stay. */
  predicate Forward(was: ExecState, now: ExecState) {
    Rank(was) <= Rank(now) && (Terminal(was) ==> now == was)
  }

  /** The operator advances: from new over starting and running to an end, which it
      does not take back. */
  function Stage(st: OpState): nat {
    if st == OpNew then 0 else if st == OpStarting || st == OpRunning then 1 else 2
  }

  predicate OpForward(was: OpState, now: OpState) {
    && Stage(was) <= Stage(now)
    && (was == OpSucceeded ==> now == OpSucceeded)
    && (was == OpFailed || was == OpError ==> now == OpFailed || now == OpError)
  }

  // ------------------------------------------------------------------- Backups

  /** What is asked about Backup n: its parameters are valid, the operator only
      advances, and nobody deletes the operator backup behind the provider's back. */
  predicate Orderly(s: State, st: Step, n: string) {
    && (n in s.backups ==> T.ResolveBackupType(s.backups[n].parameters).Some?)
    && (st.AdvanceBackup? && st.name == n && n in s.opBackups ==> OpForward(s.opBackups[n].status, st.status))
    && !(st.RequestDelete? && st.target.BackupObject? && st.name == n)
  }

  /** The state in the Backup never runs ahead of the operator backup. */
  predicate Behind(s: State, n: string) {
    && (n in s.backups ==> s.backups[n].meta.uid < s.nextUid)
    && (n in s.opBackups && s.opBackups[n].meta.deleting ==> n in s.backups && s.backups[n].meta.deleting)
    && (n in s.backups && !s.backups[n].meta.deleting ==>
          if n in s.opBackups then Forward(s.backups[n].state, Reported(s.opBackups[n].status))
          else Rank(s.backups[n].state) == 0)
  }

  /** A SyncBackup call moves the state forward and keeps it behind the operator's. */
  lemma SyncBackupForward(s: State, n: string, k: nat, saved: bool)
    requires n in s.backups && !s.backups[n].meta.deleting && Behind(s, n)
    requires T.ResolveBackupType(s.backups[n].parameters).Some?
    ensures var s' := DoReconcileBackup(s, n, k, saved);
            && n in s'.backups && s'.backups[n].meta.uid == s.backups[n].meta.uid
            && Forward(s.backups[n].state, s'.backups[n].state) && Behind(s', n)
  {
    hide SyncBackup;
    var r := SyncBackup(s, n, k);
    assert Get(r.s.opBackups, n).Some? ==> n in r.s.opBackups;
  }

  lemma OtherBackup(s: State, m: string, n: string, k: nat, saved: bool)
    requires m in s.backups && m != n
    ensures var s' := DoReconcileBackup(s, m, k, saved);
            Get(s'.backups, n) == Get(s.backups, n) && Get(s'.opBackups, n) == Get(s.opBackups, n)
  {
    hide SyncBackup;
  }

  /** The Backup with identity u has got at least as far as st. */
  predicate ReachedBackup(s: State, n: string, u: nat, st: ExecState) {
    u < s.nextUid && (n in s.backups && s.backups[n].meta.uid == u ==> Forward(st, s.backups[n].state))
  }

  lemma BehindStep(s: State, st: Step, n: string)
    requires Behind(s, n) && Orderly(s, st, n)
    ensures Behind(Next(s, st), n)
  {
    if st.ReconcileBackup? && st.name in s.backups && !s.backups[st.name].meta.deleting {
      hide DoReconcileBackup;
      if st.name == n { SyncBackupForward(s, n, st.k, st.saved); } else { OtherBackup(s, st.name, n, st.k, st.saved); }
    } else {
      OpBackupSteps(s, st, n);
      BackupSteps(s, st, n);
      HistoryGrows(s, st);
      CreatedUid(s, st, n);
      BehindElsewhere(s, st, Next(s, st), n);
    }
  }

  ghost predicate FreshlyCreated(s: State, s': State, n: string) {
    n in s'.backups && n !in s.backups ==>
      && s'.backups[n].meta.uid == s.nextUid && s'.nextUid == s.nextUid + 1
      && s'.backups[n].state == Unset && !s'.backups[n].meta.deleting
  }

  lemma BehindElsewhere(s: State, st: Step, s': State, n: string)
    requires Behind(s, n) && Orderly(s, st, n)
    requires !(st.ReconcileBackup? && st.name in s.backups && !s.backups[st.name].meta.deleting)
    requires OpBackupStep(s, st, n, s') && BackupStep(s, st, n, s')
    requires FreshlyCreated(s, s', n) && s.nextUid <= s'.nextUid
    ensures Behind(s', n)
  {
    hide SyncBackup, OpBackupCase, CleanupBackup, Mirror, T.ResolveBackupType;
  }

  /** A Backup that appears in a step has a fresh identity and no state yet. */
  lemma CreatedUid(s: State, st: Step, n: string)
    ensures FreshlyCreated(s, Next(s, st), n)
  {
    BackupSteps(s, st, n);
    hide SyncBackup, CleanupBackup, DoReconcileBackup, DoFinishBackup, Reconcile;
  }

  lemma ReachedStep(s: State, st: Step, n: string, u: nat, e: ExecState)
    requires ReachedBackup(s, n, u, e) && Behind(s, n) && Orderly(s, st, n)
    ensures ReachedBackup(Next(s, st), n, u, e)
  {
    HistoryGrows(s, st);
    if st.ReconcileBackup? && st.name in s.backups && !s.backups[st.name].meta.deleting {
      hide DoReconcileBackup;
      if st.name == n { SyncBackupForward(s, n, st.k, st.saved); } else { OtherBackup(s, st.name, n, st.k, st.saved); }
    } else {
      BackupSteps(s, st, n);
      CreatedUid(s, st, n);
      hide Next, SyncBackup, CleanupBackup, Mirror, Behind, StorageRegistered;
    }
  }

  lemma {:induction false} RunBehind(tr: seq<State>, steps: seq<Step>, n: string, i: nat)
    requires IsRun(tr, steps) && i <= |steps| && Behind(tr[0], n)
    requires forall j :: 0 <= j < |steps| ==> Orderly(tr[j], steps[j], n)
    ensures Behind(tr[i], n)
  {
    hide Next, Behind, Orderly;
    if i > 0 {
      RunBehind(tr, steps, n, i - 1);
      BehindStep(tr[i - 1], steps[i - 1], n);
    }
  }

  /** The state reported for a Backup never moves backwards, and terminal states
      are absorbing, over all runs. */
  lemma {:induction false} BackupStatusMonotone(tr: seq<State>, steps: seq<Step>, n: string, i: nat, j: nat)
    requires IsRun(tr, steps) && i <= j <= |steps| && n !in tr[0].backups && n !in tr[0].opBackups
    requires forall h :: 0 <= h < |steps| ==> Orderly(tr[h], steps[h], n)
    requires n in tr[i].backups
    ensures ReachedBackup(tr[j], n, tr[i].backups[n].meta.uid, tr[i].backups[n].state)
    ensures n in tr[j].backups && tr[j].backups[n].meta.uid == tr[i].backups[n].meta.uid ==>
              Forward(tr[i].backups[n].state, tr[j].backups[n].state)
  {
    hide Next, Orderly, T.ResolveBackupType, ResolveSource;
    RunBehind(tr, steps, n, i);
    if j > i {
      hide Behind;
      BackupStatusMonotone(tr, steps, n, i, j - 1);
      RunBehind(tr, steps, n, j - 1);
      ReachedStep(tr[j - 1], steps[j - 1], n, tr[i].backups[n].meta.uid, tr[i].backups[n].state);
    }
  }

  /** With valid parameters a Backup is marked Failed only because its operator
      backup failed; no interleaving with Sync makes a missing cluster or storage
      permanent. */
  lemma FailedOnlyByOperator(tr: seq<State>, steps: seq<Step>, n: string, i: nat)
    requires IsRun(tr, steps) && i <= |steps| && n !in tr[0].backups && n !in tr[0].opBackups
    requires forall h :: 0 <= h < |steps| ==> Orderly(tr[h], steps[h], n)
    requires n in tr[i].backups && !tr[i].backups[n].meta.deleting && tr[i].backups[n].state == Failed
    ensures n in tr[i].opBackups && (tr[i].opBackups[n].status == OpFailed || tr[i].opBackups[n].status == OpError)
  {
    hide Next;
    RunBehind(tr, steps, n, i);
  }

  // ------------------------------------------------------------------ Restores

  /** What is asked about Restore n: a reconcile finds its source usable, the
      operator only advances, and only CleanupRestore deletes the operator restore. */
  predicate OrderlyRestore(s: State, st: Step, n: string) {
    && (st.ReconcileRestore? && st.name == n && n in s.restores ==> ResolveSource(s, s.restores[n]).None?)
    && (st.AdvanceRestore? && st.name == n && n in s.opRestores ==> OpForward(s.opRestores[n].status, st.status))
    && !(st.RequestDelete? && st.target.RestoreObject? && st.name == n)
  }

  predicate RestoreBehind(s: State, n: string) {
    && (n in s.restores ==> s.restores[n].meta.uid < s.nextUid)
    && (n in s.opRestores && s.opRestores[n].meta.deleting ==> n in s.restores && s.restores[n].meta.deleting)
    && (n in s.restores && !s.restores[n].meta.deleting ==>
          if n in s.opRestores then Forward(s.restores[n].state, Reported(s.opRestores[n].status))
          else Rank(s.restores[n].state) == 0)
    && (n !in s.restores ==> n !in s.opRestores)
  }

  /** The Restore with identity u has got at least as far as e. */
  predicate ReachedRestore(s: State, n: string, u: nat, e: ExecState) {
    u < s.nextUid && (n in s.restores && s.restores[n].meta.uid == u ==> Forward(e, s.restores[n].state))
  }

  lemma RestoreBehindStep(s: State, st: Step, n: string)
    requires RestoreBehind(s, n) && OrderlyRestore(s, st, n)
    ensures RestoreBehind(Next(s, st), n)
  {
    hide Next, RestoreBehind, OpRestoreStep, RestoreStep, OrderlyRestore;
    OpRestoreSteps(s, st, n);
    RestoreSteps(s, st, n);
    HistoryGrows(s, st);
    RestoreBehindAfter(s, st, Next(s, st), n);
  }

  lemma RestoreBehindAfter(s: State, st: Step, s': State, n: string)
    requires RestoreBehind(s, n) && OrderlyRestore(s, st, n)
    requires OpRestoreStep(s, st, n, s') && RestoreStep(s, st, n, s') && s.nextUid <= s'.nextUid
    ensures RestoreBehind(s', n)
  {
    hide SyncRestore, CleanupRestore, ResolveSource;
  }

  lemma ReachedRestoreStep(s: State, st: Step, n: string, u: nat, e: ExecState)
    requires ReachedRestore(s, n, u, e) && RestoreBehind(s, n) && OrderlyRestore(s, st, n)
    ensures ReachedRestore(Next(s, st), n, u, e)
  {
    RestoreSteps(s, st, n);
    HistoryGrows(s, st);
    hide Next, SyncRestore, CleanupRestore, ResolveSource;
  }

  lemma {:induction false} RunRestoreBehind(tr: seq<State>, steps: seq<Step>, n: string, i: nat)
    requires IsRun(tr, steps) && i <= |steps| && RestoreBehind(tr[0], n)
    requires forall j :: 0 <= j < |steps| ==> OrderlyRestore(tr[j], steps[j], n)
    ensures RestoreBehind(tr[i], n)
  {
    hide Next, RestoreBehind, OrderlyRestore;
    if i > 0 {
      RunRestoreBehind(tr, steps, n, i - 1);
      RestoreBehindStep(tr[i - 1], steps[i - 1], n);
    }
  }

  /** The same for Restores, as long as their sources stay usable. */
  lemma {:induction false} RestoreStatusMonotone(tr: seq<State>, steps: seq<Step>, n: string, i: nat, j: nat)
    requires IsRun(tr, steps) && i <= j <= |steps| && n !in tr[0].restores && n !in tr[0].opRestores
    requires forall h :: 0 <= h < |steps| ==> OrderlyRestore(tr[h], steps[h], n)
    requires n in tr[i].restores
    ensures ReachedRestore(tr[j], n, tr[i].restores[n].meta.uid, tr[i].restores[n].state)
    ensures n in tr[j].restores && tr[j].restores[n].meta.uid == tr[i].restores[n].meta.uid ==>
              Forward(tr[i].restores[n].state, tr[j].restores[n].state)
  {
    hide Next, OrderlyRestore, T.ResolveBackupType, ResolveSource;
    RunRestoreBehind(tr, steps, n, i);
    if j > i {
      hide RestoreBehind;
      RestoreStatusMonotone(tr, steps, n, i, j - 1);
      RunRestoreBehind(tr, steps, n, j - 1);
      ReachedRestoreStep(tr[j - 1], steps[j - 1], n, tr[i].restores[n].meta.uid, tr[i].restores[n].state);
    }
  }

  // -------------------------------------------------------- the startup race

  /** Every single call: Failed mirrors the operator, and an operator backup is
      created only for a storage registered on the cluster. */
  lemma CallNeverFailsOnItsOwn(s: State, n: string, k: nat)
    requires n in s.backups && T.ResolveBackupType(s.backups[n].parameters).Some?
    ensures var r := SyncBackup(s, n, k);
            && (r.out.Report? && r.out.state == Failed ==>
                  n in s.opBackups && (s.opBackups[n].status == OpFailed || s.opBackups[n].status == OpError))
            && (n !in s.opBackups && n in r.s.opBackups ==> StorageRegistered(s, s.backups[n]))
  {
    hide SyncBackup, StorageRegistered;
    var r := SyncBackup(s, n, k);
    assert Get(r.s.opBackups, n).Some? <==> n in r.s.opBackups;
  }

  /** Once the storage is registered, the next error-free call creates the
      operator backup the Backup asks for. */
  lemma RegisteredIsCreated(s: State, n: string, k: nat)
    requires n in s.backups && s.backups[n].schedule == "" && n !in s.opBackups
    requires T.ResolveBackupType(s.backups[n].parameters).Some? && StorageRegistered(s, s.backups[n])
    requires SyncBackup(s, n, k).out.Report?
    ensures var b, s' := s.backups[n], SyncBackup(s, n, k).s;
            && n in s'.opBackups
            && s'.opBackups[n] == NewOpBackup(n, b, T.ResolveBackupType(b.parameters).value, s.nextUid)
  {
    hide SyncBackup, StorageRegistered, NewOpBackup;
    var r := SyncBackup(s, n, k);
    assert Get(r.s.opBackups, n).Some? <==> n in r.s.opBackups;
  }

  /** With parameters the provider cannot decode the outcome follows the storage:
      refused while it is registered, waiting otherwise. The call itself would take a
      Failed report back, should it be made again once the storage is gone; that is why
      the theorems ask for valid parameters. */
  lemma RefusalFollowsStorage(s: State, n: string, k: nat)
    requires n in s.backups && s.backups[n].schedule == "" && n !in s.opBackups && k >= 4
    requires T.ResolveBackupType(s.backups[n].parameters).None?
    ensures SyncBackup(s, n, k).out == if StorageRegistered(s, s.backups[n]) then REFUSED else WAITING
  {
  }
}
