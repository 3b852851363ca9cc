/** Sync must not re-assert the cluster spec while the operator restores into the
    cluster, because the operator pauses it then. */
module RestoreExclusion {
  import opened Kube
  import opened Instances
  import opened Protocol
  import opened Effects
  import T = Translation

  /** An operator restore that has not ended, whose Restore is not being deleted. */
  predicate InFlight(s: State, r: string) {
    && r in s.opRestores && !OpTerminal(s.opRestores[r].status)
    && r in s.restores && !s.restores[r].meta.deleting
  }

  /** The named source Backup, whenever present, has not failed and keeps the
      origin recorded in home. */
  predicate SourceSound(s: State, r: string, home: map<string, string>) {
    r in s.restores && s.restores[r].source.FromBackup? && s.restores[r].source.name in s.backups ==>
      var source := s.restores[r].source.name;
      s.backups[source].state != Failed && source in home && s.backups[source].instance == home[source]
  }

  predicate Usable(r: Restore, home: map<string, string>) {
    r.source.FromBackup? && r.source.name != "" && r.source.name in home && home[r.source.name] == r.instance
  }

  /** The operator restore, the Restore and its reported state fit together. */
  predicate Linked(s: State, r: string, home: map<string, string>) {
    && (r in s.opRestores ==> r in s.restores)
    && (r in s.opRestores && s.opRestores[r].meta.deleting ==> s.restores[r].meta.deleting)
    && (r in s.restores && !s.restores[r].meta.deleting ==>
          var restore := s.restores[r];
          if r in s.opRestores then
            && Usable(restore, home) && s.opRestores[r].cluster == restore.instance
            && (Terminal(restore.state) ==> OpTerminal(s.opRestores[r].status))
          else Usable(restore, home) ==> !Terminal(restore.state))
  }

  /** What is asked of the other parties: the spec of r does not change, its
      operator restore is deleted by CleanupRestore only, and the operator does
      not take back that a restore has ended. */
  predicate Fair(s: State, st: Step, r: string) {
    match st
    case EditRestore(n, _) => n != r
    case RequestDelete(target, n) => !(target.RestoreObject? && n == r)
    case AdvanceRestore(n, status, _) =>
      n == r && r in s.opRestores && OpTerminal(s.opRestores[r].status) ==> OpTerminal(status)
    case _ => true
  }

  lemma SyncRestoreLinked(s: State, r: string, home: map<string, string>, k: nat, saved: bool)
    requires r in s.restores && !s.restores[r].meta.deleting
    requires Linked(s, r, home) && SourceSound(s, r, home)
    ensures Linked(DoReconcileRestore(s, r, k, saved), r, home)
  {
    hide SyncRestore;
    var after := SyncRestore(s, r, k);
    assert Get(after.s.opRestores, r).Some? ==> r in after.s.opRestores;
  }

  /** A reconcile of another Restore does not touch this one. */
  lemma OtherRestore(s: State, n: string, r: string, k: nat, saved: bool)
    requires n in s.restores && n != r
    ensures var s' := DoReconcileRestore(s, n, k, saved);
            && (r in s'.restores <==> r in s.restores) && (r in s.restores ==> s'.restores[r] == s.restores[r])
            && (r in s'.opRestores <==> r in s.opRestores)
            && (r in s.opRestores ==> s'.opRestores[r] == s.opRestores[r])
  {
    hide SyncRestore;
    var after := SyncRestore(s, n, k).s;
  }

  lemma StepLinked(s: State, st: Step, r: string, home: map<string, string>)
    requires Linked(s, r, home) && SourceSound(s, r, home) && Fair(s, st, r)
    ensures Linked(Next(s, st), r, home)
  {
    if !TouchesRestores(st) {
      RestoresFrame(s, st);
    } else if st.ReconcileRestore? {
      if st.name in s.restores && !s.restores[st.name].meta.deleting {
        if st.name == r {
          SyncRestoreLinked(s, r, home, st.k, st.saved);
        } else {
          OtherRestore(s, st.name, r, st.k, st.saved);
        }
      }
    } else {
      OpRestoreSteps(s, st, r);
      RestoreSteps(s, st, r);
      OwnStepLinked(s, st, Next(s, st), r, home);
    }
  }

  lemma OwnStepLinked(s: State, st: Step, s': State, r: string, home: map<string, string>)
    requires OpRestoreStep(s, st, r, s') && RestoreStep(s, st, r, s') && !st.ReconcileRestore?
    requires Linked(s, r, home) && Fair(s, st, r)
    ensures Linked(s', r, home)
  {
    hide SyncRestore, OpRestoreCase;
  }

  lemma {:induction false} RunLinked(tr: seq<State>, steps: seq<Step>, r: string, home: map<string, string>, i: nat)
    requires IsRun(tr, steps) && i <= |steps| && Linked(tr[0], r, home)
    requires forall j :: 0 <= j < |steps| ==> SourceSound(tr[j], r, home) && Fair(tr[j], steps[j], r)
    ensures Linked(tr[i], r, home)
  {
    hide Next, Linked, SourceSound, Fair;
    if i > 0 {
      RunLinked(tr, steps, r, home, i - 1);
      StepLinked(tr[i - 1], steps[i - 1], r, home);
    }
  }

  /** While a linked restore is in flight the scan finds it, so a reconcile of the
      cluster's Instance changes nothing at all. */
  lemma InFlightBlocksSync(s: State, r: string, home: map<string, string>, w: World)
    requires Linked(s, r, home) && InFlight(s, r)
    ensures Next(s, ReconcileInstance(s.opRestores[r].cluster, w)) == s
  {
    assert Active(s.restores[r], s.opRestores[r].cluster);
  }

  /** Restore exclusion over all runs: whatever users, the operator and the
      provider do in between, the cluster spec changes while a restore is in
      flight only by the operator's own toggling of pause. */
  lemma RestoreExclusion(tr: seq<State>, steps: seq<Step>, r: string, home: map<string, string>, i: nat)
    requires IsRun(tr, steps) && i < |steps|
    requires r !in tr[0].restores && r !in tr[0].opRestores
    requires forall j :: 0 <= j < |steps| ==> SourceSound(tr[j], r, home) && Fair(tr[j], steps[j], r)
    requires InFlight(tr[i], r)
    ensures var c := tr[i].opRestores[r].cluster;
            && (steps[i].ReconcileInstance? && steps[i].name == c ==> tr[i + 1] == tr[i])
            && (c in tr[i].clusters && c in tr[i + 1].clusters && !(steps[i].SetPause? && steps[i].name == c) ==>
                  tr[i + 1].clusters[c].spec == tr[i].clusters[c].spec)
  {
    RunLinked(tr, steps, r, home, i);
    var c := tr[i].opRestores[r].cluster;
    if steps[i].ReconcileInstance? && steps[i].name == c {
      InFlightBlocksSync(tr[i], r, home, steps[i].w);
    } else if !(steps[i].SetPause? && steps[i].name == c) {
      ClusterFrame(tr[i], steps[i], c);
    }
  }

  /** Only a reconcile of the Instance and the operator's pause write a cluster spec. */
  lemma ClusterFrame(s: State, st: Step, c: string)
    requires !(st.ReconcileInstance? && st.name == c) && !(st.SetPause? && st.name == c)
    ensures c in s.clusters && c in Next(s, st).clusters ==> Next(s, st).clusters[c].spec == s.clusters[c].spec
  {
    hide SyncRestore, SyncBackup, CleanupBackup, CleanupRestore, CleanupInstance, Reconcile, Mirror;
  }
}
