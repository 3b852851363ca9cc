/** Cleanup calls whose first read comes from a cache. The cached copy may be gone
    from the server by now, may have changed since, or may not have been seen yet. */
module StaleCleanup {
  import opened Kube
  import opened Protocol
  import opened Cleanup

  /** What the cache holds under one name. */
  datatype View = View(cluster: Option<Cluster>, backup: Option<OpBackup>, restore: Option<OpRestore>)

  function ViewOf(s: State, n: string): View {
    View(Get(s.clusters, n), Get(s.opBackups, n), Get(s.opRestores, n))
  }

  /** The metadata of the cached copy. */
  function Seen(v: View, target: Target): Option<Meta> {
    match target
    case ClusterObject => if v.cluster.Some? then Some(v.cluster.value.meta) else None
    case BackupObject => if v.backup.Some? then Some(v.backup.value.meta) else None
    case RestoreObject => if v.restore.Some? then Some(v.restore.value.meta) else None
  }

  /** CleanupBackup. The update that strips the finalizer carries the version of the
      cached copy: it fails when the object is gone or has changed. The delete goes by
      name, and finding nothing there is no error. */
  function BackupSeeing(s: State, n: string, seen: Option<OpBackup>, k: nat): Cleaned
    requires n in s.backups
  {
    if k == 0 then Cleaned(s, None)
    else match seen
      case None => Cleaned(s, Some(true))
      case Some(op) =>
        if s.backups[n].retain && DELETE_BACKUP in op.meta.finalizers then
          if k == 1 || Get(s.opBackups, n) != seen then Cleaned(s, None)
          else
            var w := ServerWrite(op.meta, RemoveFinalizer(op.meta.finalizers, DELETE_BACKUP), op.meta.owners);
            DeleteOpBackup(WriteOpBackup(s, n, w), n, op.meta.deleting, k - 2)
        else DeleteOpBackup(s, n, op.meta.deleting, k - 1)
  }

  function RestoreSeeing(s: State, n: string, seen: Option<OpRestore>, k: nat): Cleaned {
    if k == 0 then Cleaned(s, None)
    else if seen.None? then Cleaned(s, Some(true))
    else if seen.value.meta.deleting then Cleaned(s, Some(false))
    else if k == 1 then Cleaned(s, None)
    else if n !in s.opRestores then Cleaned(s, Some(false))
    else Cleaned(WriteOpRestore(s, n, ServerDelete(s.opRestores[n].meta)), Some(false))
  }

  /** Cleanup. A delete that finds nothing completes the cleanup. */
  function InstanceSeeing(s: State, n: string, seen: Option<Cluster>, k: nat): Cleaned {
    if k == 0 then Cleaned(s, None)
    else if seen.None? then Cleaned(s, Some(true))
    else if seen.value.meta.deleting then Cleaned(s, Some(false))
    else if k == 1 then Cleaned(s, None)
    else if n !in s.clusters then Cleaned(s, Some(true))
    else Cleaned(WriteCluster(s, n, ServerDelete(s.clusters[n].meta)), Some(false))
  }

  function CleaningSeeing(s: State, v: View, target: Target, n: string, k: nat): Cleaned
    requires OwnerDeleting(s, target, n)
  {
    match target
    case ClusterObject => InstanceSeeing(s, n, v.cluster, k)
    case BackupObject => BackupSeeing(s, n, v.backup, k)
    case RestoreObject => RestoreSeeing(s, n, v.restore, k)
  }

  /** With an up-to-date cache these are the calls of the protocol. */
  lemma CurrentView(s: State, target: Target, n: string, k: nat)
    requires OwnerDeleting(s, target, n)
    ensures CleaningSeeing(s, ViewOf(s, n), target, n, k) == Cleaning(s, target, n, k)
  {
  }

  lemma CurrentBackup(s: State, n: string, k: nat)
    requires n in s.backups
    ensures BackupSeeing(s, n, Get(s.opBackups, n), k) == CleanupBackup(s, n, k)
  {
  }

  // ------------------------------------------------------------------ honesty

  /** Exactly when completion is reported: the lookup found nothing, or it found a
      cluster that the delete did not find any more. */
  lemma CompletionReported(s: State, v: View, target: Target, n: string, k: nat)
    requires OwnerDeleting(s, target, n)
    ensures CleaningSeeing(s, v, target, n, k).out == Some(true) <==>
              k > 0 && match Seen(v, target)
                       case None => true
                       case Some(m) => target.ClusterObject? && !m.deleting && k > 1 && Object(s, target, n).None?
  {
  }

  /** A completion reported by a call is true if and only if the object is absent at
      the server or was seen by the lookup: a NotFound misleads exactly when it comes
      from a cache that has yet to see the object. */
  lemma HonestUnlessUnseen(s: State, v: View, target: Target, n: string, k: nat)
    requires OwnerDeleting(s, target, n) && k > 0
    ensures var r := CleaningSeeing(s, v, target, n, k);
            (r.out == Some(true) ==> Object(r.s, target, n).None?)
            <==> !(Seen(v, target).None? && Object(s, target, n).Some?)
  {
    CompletionReported(s, v, target, n, k);
  }

  /** The failing input: an object that the cache has yet to see. Its Backup is let
      go, and it stays behind untouched. */
  lemma UnseenStaysBehind(s: State, v: View, target: Target, n: string, k: nat)
    requires OwnerDeleting(s, target, n) && Object(s, target, n).Some? && Seen(v, target).None? && k > 0
    ensures CleaningSeeing(s, v, target, n, k) == Cleaned(s, Some(true))
  {
  }

  /** The other way round: an object gone since the cache saw it is never reported as
      left behind by Cleanup, and makes the other two come back. */
  lemma GoneSince(s: State, v: View, target: Target, n: string, k: nat)
    requires OwnerDeleting(s, target, n) && Object(s, target, n).None? && Seen(v, target).Some? && k >= 3
    ensures var r := CleaningSeeing(s, v, target, n, k);
            && r.s == s
            && (r.out == Some(true) <==> target.ClusterObject? && !Seen(v, target).value.deleting)
  {
  }

  /** Over runs: a view taken since the owner is being deleted never misleads,
      however old it is by the time of the call. */
  lemma OldViewStaysHonest(tr: seq<State>, steps: seq<Step>, target: Target, n: string, i: nat, j: nat, k: nat)
    requires SettlingRun(tr, steps, target, n) && i <= j <= |steps|
    requires Waiting(Object(tr[i], target, n)) && OwnerDeleting(tr[j], target, n)
    ensures CleaningSeeing(tr[j], ViewOf(tr[i], n), target, n, k).out == Some(true) ==> Object(tr[j], target, n).None?
  {
    DistanceShrinks(tr, steps, target, n, i, j);
    DistanceZero(Object(tr[i], target, n));
    DistanceZero(Object(tr[j], target, n));
    CompletionReported(tr[j], ViewOf(tr[i], n), target, n, k);
    hide Next, CleaningSeeing;
  }

  // ---------------------------------------------------------------- retention

  /** Under Retain a call opens the way to the purge if and only if it works from a
      copy that has yet to see the delete-backup finalizer. */
  lemma RetainUnlessFinalizerUnseen(s: State, n: string, seen: Option<OpBackup>, k: nat)
    requires n in s.backups && s.backups[n].retain && !PurgeEnabled(s, n) && k >= 3
    ensures PurgeEnabled(BackupSeeing(s, n, seen, k).s, n) <==>
              && n in s.opBackups && DELETE_BACKUP in s.opBackups[n].meta.finalizers
              && seen.Some? && !seen.value.meta.deleting && DELETE_BACKUP !in seen.value.meta.finalizers
  {
  }
}
