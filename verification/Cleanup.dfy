/** Cleanup reports completion only when the operator object is gone, and gets
    there as long as the operator clears its finalizers. */
module Cleanup {
  import opened Kube
  import opened Protocol
  import opened Effects
  import T = Translation

  /** The metadata of the operator object behind an Instance, Backup or Restore. */
  function Object(s: State, target: Target, n: string): Option<Meta> {
    match target
    case ClusterObject => if n in s.clusters then Some(s.clusters[n].meta) else None
    case BackupObject => if n in s.opBackups then Some(s.opBackups[n].meta) else None
    case RestoreObject => if n in s.opRestores then Some(s.opRestores[n].meta) else None
  }

  /** The Instance, Backup or Restore is being deleted. */
  predicate OwnerDeleting(s: State, target: Target, n: string) {
    match target
    case ClusterObject => n in s.instances && s.instances[n].deleting
    case BackupObject => n in s.backups && s.backups[n].meta.deleting
    case RestoreObject => n in s.restores && s.restores[n].meta.deleting
  }

  function Cleaning(s: State, target: Target, n: string, k: nat): Cleaned
    requires OwnerDeleting(s, target, n)
  {
    match target
    case ClusterObject => CleanupInstance(s, n, k)
    case BackupObject => CleanupBackup(s, n, k)
    case RestoreObject => CleanupRestore(s, n, k)
  }

  function Finish(target: Target, n: string, k: nat): Step {
    match target
    case ClusterObject => FinishInstance(n, k)
    case BackupObject => FinishBackup(n, k, true)
    case RestoreObject => FinishRestore(n, k, true)
  }

  /** Completion is reported exactly when the object is absent (and the one call
      that looks it up succeeds). */
  lemma CleanupHonest(s: State, target: Target, n: string, k: nat)
    requires OwnerDeleting(s, target, n)
    ensures Cleaning(s, target, n, k).out == Some(true) <==> Object(s, target, n).None? && k > 0
  {
    hide CleanupBackup;
    if target.BackupObject? { AbsentBackup(s, n, k); }
  }

  lemma AbsentBackup(s: State, n: string, k: nat)
    requires n in s.backups
    ensures n !in s.opBackups && k > 0 ==> CleanupBackup(s, n, k) == Cleaned(s, Some(true))
    ensures k == 0 ==> CleanupBackup(s, n, k) == Cleaned(s, None)
  {
  }

  // ------------------------------------------------------------- termination

  /** Deletion not yet requested, finalizers remaining. */
  function Distance(m: Option<Meta>): nat {
    if m.None? then 0 else |m.value.finalizers| + if m.value.deleting then 0 else 1
  }

  /** The steps that bring the end closer: an error-free cleanup call that has yet
      to request the deletion, and the operator clearing a finalizer after it. */
  predicate Effective(s: State, st: Step, target: Target, n: string) {
    var m := Object(s, target, n);
    && m.Some?
    && (|| (!m.value.deleting && st == Finish(target, n, 3))
        || (m.value.deleting && st.DropFinalizer? && st.target == target && st.name == n
            && st.finalizer in m.value.finalizers && !(target.BackupObject? && st.finalizer == DELETE_BACKUP))
        || (target.BackupObject? && st == Purge(n) && PurgeEnabled(s, n)))
  }

  /** What is asked of everybody else: the owner stays, no schedule fires under the
      same name, and nobody adds finalizers before the deletion is requested. */
  predicate Settling(s: State, st: Step, target: Target, n: string) {
    && OwnerDeleting(s, target, n)
    && !(st.FireSchedule? && st.name == n)
    && (st.PutFinalizer? && st.target == target && st.name == n && Object(s, target, n).Some? ==>
          Object(s, target, n).value.deleting)
  }

  /** An object marked for deletion still waits for something. */
  predicate Waiting(m: Option<Meta>) {
    m.Some? && m.value.deleting ==> m.value.finalizers != []
  }

  /** So the distance is zero exactly when the object is gone. */
  lemma DistanceZero(m: Option<Meta>)
    requires Waiting(m)
    ensures Distance(m) == 0 <==> m.None?
  {
  }

  /** Adding a finalizer to an object being deleted, or dropping one, never adds to
      the distance; dropping one that is there shortens it. */
  lemma FinalizerWrites(m: Meta, f: string)
    requires Waiting(Some(m))
    ensures m.deleting ==>
              var w := ServerWrite(m, AddFinalizer(m.finalizers, f), m.owners);
              w == Rejected || w == Stored(m)
    ensures var w := ServerWrite(m, RemoveFinalizer(m.finalizers, f), m.owners);
            && !w.Rejected? && (w.Removed? ==> m.deleting)
            && (w.Stored? ==> Distance(Some(w.meta)) <= Distance(Some(m)) && Waiting(Some(w.meta)))
            && (f in m.finalizers && w.Stored? ==> Distance(Some(w.meta)) < Distance(Some(m)))
    ensures Distance(Some(m)) > 0
  {
  }

  /** The step from s to s' does not lead away from the end. */
  predicate Closer(s: State, st: Step, s': State, target: Target, n: string) {
    var m, m' := Object(s, target, n), Object(s', target, n);
    Waiting(m') && Distance(m') <= Distance(m) && (Effective(s, st, target, n) ==> Distance(m') < Distance(m))
  }

  /** Finalizer writes, for any of the three kinds of object. */
  lemma RefinalizeObject(s: State, target: Target, n: string, change: seq<string> -> seq<string>)
    ensures var m, m' := Object(s, target, n), Object(Refinalize(s, target, n, change), target, n);
            if m.None? then m'.None?
            else m' == match ServerWrite(m.value, change(m.value.finalizers), m.value.owners) {
              case Rejected => m case Removed => None case Stored(w) => Some(w) }
  {
    hide ServerWrite;
  }

  lemma RefinalizeCloser(s: State, st: Step, target: Target, n: string)
    requires (st.PutFinalizer? || st.DropFinalizer?) && st.target == target && st.name == n
    requires Settling(s, st, target, n) && Waiting(Object(s, target, n))
    ensures Closer(s, st, Next(s, st), target, n)
  {
    var add := fs => AddFinalizer(fs, st.finalizer);
    var drop := fs => RemoveFinalizer(fs, st.finalizer);
    RefinalizeObject(s, target, n, add);
    RefinalizeObject(s, target, n, drop);
    if Object(s, target, n).Some? { FinalizerWrites(Object(s, target, n).value, st.finalizer); }
    NextRefinalized(s, st, target, n);
    hide ServerWrite, Refinalize, Next, Object;
  }

  lemma NextRefinalized(s: State, st: Step, target: Target, n: string)
    requires (st.PutFinalizer? || st.DropFinalizer?) && st.target == target && st.name == n
    ensures Next(s, st) == if st.PutFinalizer? then Refinalize(s, target, n, fs => AddFinalizer(fs, st.finalizer))
                           else if target.BackupObject? && st.finalizer == DELETE_BACKUP then s
                           else Refinalize(s, target, n, fs => RemoveFinalizer(fs, st.finalizer))
  {
    hide Refinalize;
  }

  /** Effective cleanup calls and purges shorten the distance. */
  lemma EffectiveShortens(s: State, st: Step, target: Target, n: string)
    requires OwnerDeleting(s, target, n) && Effective(s, st, target, n) && !st.DropFinalizer?
    ensures Distance(Object(Next(s, st), target, n)) < Distance(Object(s, target, n))
  {
    hide DoReconcileBackup, DoReconcileRestore, DoMirror, Reconcile, Refinalize, DoRequestDelete, DoFire,
         T.BuildCluster, T.Validate;
  }

  predicate NoFarther(s: State, s': State, target: Target, n: string) {
    Waiting(Object(s', target, n)) && Distance(Object(s', target, n)) <= Distance(Object(s, target, n))
  }

  lemma ClusterNoFarther(s: State, st: Step, s': State, n: string)
    requires Settling(s, st, ClusterObject, n) && Waiting(Object(s, ClusterObject, n))
    requires !((st.PutFinalizer? || st.DropFinalizer?) && st.target.ClusterObject? && st.name == n)
    requires ClusterStep(s, st, n, s')
    ensures NoFarther(s, s', ClusterObject, n)
  {
    hide T.BuildCluster, T.Validate, ActiveRestore;
  }

  lemma BackupNoFarther(s: State, st: Step, s': State, n: string)
    requires Settling(s, st, BackupObject, n) && Waiting(Object(s, BackupObject, n))
    requires !((st.PutFinalizer? || st.DropFinalizer?) && st.target.BackupObject? && st.name == n)
    requires OpBackupStep(s, st, n, s')
    ensures NoFarther(s, s', BackupObject, n)
  {
    hide SyncBackup, OpBackupCase, CleanupBackup;
  }

  lemma RestoreNoFarther(s: State, st: Step, s': State, n: string)
    requires Settling(s, st, RestoreObject, n) && Waiting(Object(s, RestoreObject, n))
    requires !((st.PutFinalizer? || st.DropFinalizer?) && st.target.RestoreObject? && st.name == n)
    requires OpRestoreStep(s, st, n, s')
    ensures NoFarther(s, s', RestoreObject, n)
  {
    hide SyncRestore, OpRestoreCase, CleanupRestore;
  }

  lemma StepNoFarther(s: State, st: Step, target: Target, n: string)
    requires Settling(s, st, target, n) && Waiting(Object(s, target, n))
    requires !((st.PutFinalizer? || st.DropFinalizer?) && st.target == target && st.name == n)
    ensures NoFarther(s, Next(s, st), target, n)
  {
    hide Next, Waiting, Object, ClusterStep, OpBackupStep, OpRestoreStep, NoFarther, Settling;
    match target {
      case ClusterObject => ClusterSteps(s, st, n); ClusterNoFarther(s, st, Next(s, st), n);
      case BackupObject => OpBackupSteps(s, st, n); BackupNoFarther(s, st, Next(s, st), n);
      case RestoreObject => OpRestoreSteps(s, st, n); RestoreNoFarther(s, st, Next(s, st), n);
    }
  }

  lemma StepCloser(s: State, st: Step, target: Target, n: string)
    requires Settling(s, st, target, n) && Waiting(Object(s, target, n))
    ensures Closer(s, st, Next(s, st), target, n)
  {
    hide Next, Waiting, Object;
    if (st.PutFinalizer? || st.DropFinalizer?) && st.target == target && st.name == n {
      RefinalizeCloser(s, st, target, n);
    } else {
      StepNoFarther(s, st, target, n);
      if Effective(s, st, target, n) { EffectiveShortens(s, st, target, n); }
    }
  }

  // ------------------------------------------------------------ over whole runs

  /** Runs in which everybody settles. */
  ghost predicate SettlingRun(tr: seq<State>, steps: seq<Step>, target: Target, n: string) {
    IsRun(tr, steps) && forall j :: 0 <= j < |steps| ==> Settling(tr[j], steps[j], target, n)
  }

  /** How many steps from i up to j were effective. */
  ghost function EffectiveSteps(tr: seq<State>, steps: seq<Step>, target: Target, n: string, i: nat, j: nat): nat
    requires |tr| > |steps| >= j >= i
  {
    if i == j then 0
    else EffectiveSteps(tr, steps, target, n, i, j - 1) + if Effective(tr[j - 1], steps[j - 1], target, n) then 1 else 0
  }

  /** Every effective step pays for itself, and no other step costs anything. */
  lemma {:induction false} DistanceShrinks(tr: seq<State>, steps: seq<Step>, target: Target, n: string, i: nat, j: nat)
    requires SettlingRun(tr, steps, target, n) && i <= j <= |steps| && Waiting(Object(tr[i], target, n))
    ensures Waiting(Object(tr[j], target, n))
    ensures Distance(Object(tr[j], target, n)) + EffectiveSteps(tr, steps, target, n, i, j)
         <= Distance(Object(tr[i], target, n))
  {
    hide Next, Settling, Waiting, Object, Effective, Distance;
    if i < j {
      DistanceShrinks(tr, steps, target, n, i, j - 1);
      StepCloser(tr[j - 1], steps[j - 1], target, n);
    }
  }

  lemma {:induction false} EffectiveCounts(tr: seq<State>, steps: seq<Step>, target: Target, n: string,
                                           i: nat, e: nat, j: nat)
    requires |tr| > |steps| >= j > e >= i && Effective(tr[e], steps[e], target, n)
    ensures EffectiveSteps(tr, steps, target, n, i, j) > 0
  {
    hide Effective;
    if e < j - 1 { EffectiveCounts(tr, steps, target, n, i, e, j - 1); }
  }

  /** Fairness, round by round: an effective step happens, or the object is gone. */
  ghost predicate FairRound(tr: seq<State>, steps: seq<Step>, target: Target, n: string, i: nat, j: nat)
    requires |tr| > |steps| >= j >= i
  {
    Object(tr[j], target, n).None? || exists e :: i <= e < j && Effective(tr[e], steps[e], target, n)
  }

  /** The run is cut into fair rounds at these points. */
  ghost predicate FairRounds(tr: seq<State>, steps: seq<Step>, target: Target, n: string, cuts: seq<nat>) {
    && |tr| > |steps| && |cuts| > 0 && cuts[0] == 0 && cuts[|cuts| - 1] == |steps|
    && forall r :: 0 < r < |cuts| ==>
         cuts[r - 1] <= cuts[r] <= |steps| && FairRound(tr, steps, target, n, cuts[r - 1], cuts[r])
  }

  lemma {:induction false} RoundsShrink(tr: seq<State>, steps: seq<Step>, target: Target, n: string,
                                        cuts: seq<nat>, r: nat)
    requires SettlingRun(tr, steps, target, n) && Waiting(Object(tr[0], target, n))
    requires FairRounds(tr, steps, target, n, cuts) && r < |cuts|
    ensures cuts[r] <= |steps| && Waiting(Object(tr[cuts[r]], target, n))
    ensures Object(tr[cuts[r]], target, n).None?
         || Distance(Object(tr[cuts[r]], target, n)) + r <= Distance(Object(tr[0], target, n))
  {
    hide Next, Settling, Object, Effective, Waiting, Distance;
    if r > 0 {
      RoundsShrink(tr, steps, target, n, cuts, r - 1);
      var i, j := cuts[r - 1], cuts[r];
      DistanceShrinks(tr, steps, target, n, i, j);
      DistanceZero(Object(tr[i], target, n));
      DistanceZero(Object(tr[j], target, n));
      if Object(tr[j], target, n).Some? {
        var e :| i <= e < j && Effective(tr[e], steps[e], target, n);
        EffectiveCounts(tr, steps, target, n, i, e, j);
      }
    }
  }

  /** Cleanup terminates: after as many fair rounds as there are finalizers, and one
      for the request, the object is gone, whatever else happens in between, and the
      next call says so. */
  lemma CleanupTerminates(tr: seq<State>, steps: seq<Step>, target: Target, n: string, cuts: seq<nat>, k: nat)
    requires SettlingRun(tr, steps, target, n) && Waiting(Object(tr[0], target, n)) && k > 0
    requires FairRounds(tr, steps, target, n, cuts) && |cuts| > Distance(Object(tr[0], target, n))
    ensures Object(tr[|steps|], target, n).None?
    ensures OwnerDeleting(tr[|steps|], target, n) ==> Cleaning(tr[|steps|], target, n, k).out == Some(true)
  {
    hide Next, Settling, Object, Effective, Waiting, Distance, Cleaning;
    RoundsShrink(tr, steps, target, n, cuts, |cuts| - 1);
    DistanceZero(Object(tr[|steps|], target, n));
    if OwnerDeleting(tr[|steps|], target, n) { CleanupHonest(tr[|steps|], target, n, k); }
  }

  /** Until the object is gone an effective step is always at hand: call cleanup,
      or let the operator clear one of the finalizers it still holds. */
  lemma EffectiveAtHand(s: State, target: Target, n: string) returns (st: Step)
    requires OwnerDeleting(s, target, n) && Object(s, target, n).Some? && Waiting(Object(s, target, n))
    ensures Effective(s, st, target, n) && Settling(s, st, target, n)
  {
    var m := Object(s, target, n).value;
    if !m.deleting {
      st := Finish(target, n, 3);
    } else if target.BackupObject? && m.finalizers[0] == DELETE_BACKUP {
      st := Purge(n);
    } else {
      assert m.finalizers[0] in m.finalizers;
      st := DropFinalizer(target, n, m.finalizers[0]);
    }
  }

  /** The owner stays until cleanup has reported completion. */
  lemma OwnerStays(s: State, st: Step, target: Target, n: string)
    requires OwnerDeleting(s, target, n) && Effective(s, st, target, n)
    ensures OwnerDeleting(Next(s, st), target, n)
  {
    hide DoReconcileBackup, DoReconcileRestore, DoMirror, Reconcile, DoRequestDelete, DoFire, T.BuildCluster,
         T.Validate;
    if st == Finish(target, n, 3) { CleanupHonest(s, target, n, 3); }
  }

  /** From every state such a run exists: the operator need only do its part. */
  lemma {:induction false} FairRunExists(s: State, target: Target, n: string, rounds: nat)
    returns (tr: seq<State>, steps: seq<Step>, cuts: seq<nat>)
    requires OwnerDeleting(s, target, n) && Waiting(Object(s, target, n)) && rounds >= Distance(Object(s, target, n))
    ensures SettlingRun(tr, steps, target, n) && tr[0] == s && OwnerDeleting(tr[|steps|], target, n)
    ensures FairRounds(tr, steps, target, n, cuts) && |cuts| == rounds + 1
    decreases rounds
  {
    hide Next, Settling, Object, Effective, Waiting, Distance, OwnerDeleting;
    DistanceZero(Object(s, target, n));
    if rounds == 0 {
      tr, steps, cuts := [s], [], [0];
    } else if Object(s, target, n).None? {
      var rest;
      tr, steps, rest := FairRunExists(s, target, n, rounds - 1);
      cuts := [0] + rest;
    } else {
      var st := EffectiveAtHand(s, target, n);
      StepCloser(s, st, target, n);
      OwnerStays(s, st, target, n);
      var tr', steps', rest := FairRunExists(Next(s, st), target, n, rounds - 1);
      tr, steps, cuts := [s] + tr', [st] + steps', [0] + seq(|rest|, r requires 0 <= r < |rest| => rest[r] + 1);
      ShiftedRounds(s, st, tr', steps', rest, target, n);
    }
  }

  /** One effective step in front of a run makes one more fair round. */
  lemma ShiftedRounds(s: State, st: Step, tr: seq<State>, steps: seq<Step>, cuts: seq<nat>, target: Target, n: string)
    requires SettlingRun(tr, steps, target, n) && FairRounds(tr, steps, target, n, cuts)
    requires tr[0] == Next(s, st) && Effective(s, st, target, n) && Settling(s, st, target, n)
    ensures SettlingRun([s] + tr, [st] + steps, target, n)
    ensures FairRounds([s] + tr, [st] + steps, target, n, [0] + seq(|cuts|, r requires 0 <= r < |cuts| => cuts[r] + 1))
  {
    hide Next, Settling, Object, Effective;
    var tr', steps', cuts' := [s] + tr, [st] + steps, [0] + seq(|cuts|, r requires 0 <= r < |cuts| => cuts[r] + 1);
    forall r | 0 < r < |cuts'|
      ensures cuts'[r - 1] <= cuts'[r] <= |steps'| && FairRound(tr', steps', target, n, cuts'[r - 1], cuts'[r])
    {
      if r == 1 {
        assert Effective(tr'[0], steps'[0], target, n);
      } else {
        assert FairRound(tr, steps, target, n, cuts[r - 2], cuts[r - 1]);
        if e :| cuts[r - 2] <= e < cuts[r - 1] && Effective(tr[e], steps[e], target, n) {
          assert Effective(tr'[e + 1], steps'[e + 1], target, n);
        }
      }
    }
  }
}
