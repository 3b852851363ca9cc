/** The backup, restore and sync protocol as a state machine. A state holds what
    the API server stores in one namespace; a step is one reconcile of the
    provider, one user request or one action of the operator.

    A provider call takes the number k of API calls that succeed before the next
    one fails. A crash after k calls leaves the same store behind. */
module Protocol {
  import opened Kube
  import opened Instances
  import T = Translation

  // ------------------------------------------------------------------ objects

  /** The state the runtime writes into Backup and Restore status. */
  datatype ExecState = Unset | Pending | Running | Succeeded | Failed

  /** The state the operator reports. */
  datatype OpState = OpNew | OpStarting | OpRunning | OpSucceeded | OpFailed | OpError

  datatype Backup = Backup(meta: Meta, instance: string, storage: string, schedule: string, className: string,
                           parameters: BackupParameters, retain: bool, state: ExecState)

  datatype DataSource = FromBackup(name: string) | OtherSource

  datatype Restore = Restore(meta: Meta, instance: string, source: DataSource, state: ExecState)

  datatype OpBackup = OpBackup(meta: Meta, btype: string, cluster: string, storage: string,
                               status: OpState, completedAt: Option<nat>)

  datatype OpRestore = OpRestore(meta: Meta, cluster: string, backup: string,
                                 status: OpState, completedAt: Option<nat>)

  datatype Cluster = Cluster(meta: Meta, spec: ClusterSpec)

  /** purged and nextUid are history: the operator backups whose data was purged,
      and a bound on all identities given out so far. */
  datatype State = State(
    instances: map<string, Instance>,
    clusters: map<string, Cluster>,
    backups: map<string, Backup>,
    restores: map<string, Restore>,
    opBackups: map<string, OpBackup>,
    opRestores: map<string, OpRestore>,
    purged: set<nat>,
    nextUid: nat)

  // ------------------------------------------------------------------ results

  datatype Outcome =
    | Failure
    | Report(state: ExecState, started: bool, completedAt: Option<nat>)

  datatype Synced = Synced(s: State, out: Outcome)
  datatype Cleaned = Cleaned(s: State, out: Option<bool>)

  const WAITING := Report(Pending, false, None)
  const REFUSED := Report(Failed, false, None)

  predicate Terminal(st: ExecState) { st == Succeeded || st == Failed }
  predicate OpTerminal(st: OpState) { st == OpSucceeded || st == OpFailed || st == OpError }

  /** How operator states map to reported ones. */
  function Reported(st: OpState): ExecState {
    match st
    case OpFailed => Failed
    case OpError => Failed
    case OpSucceeded => Succeeded
    case OpRunning => Running
    case OpStarting => Running
    case OpNew => Pending
  }

  function ReportOf(st: OpState, completedAt: Option<nat>): Outcome {
    Report(Reported(st), true, if st == OpSucceeded then completedAt else None)
  }

  // ------------------------------------------------------------- store access

  function Get<V>(m: map<string, V>, n: string): Option<V> {
    if n in m then Some(m[n]) else None
  }

  /** The two maps differ at n at most. */
  ghost predicate OnlyAt<V>(m: map<string, V>, m': map<string, V>, n: string) {
    forall k :: k != n ==> (k in m' <==> k in m) && (k in m && k in m' ==> m'[k] == m[k])
  }

  const INSTANCE_LABEL := "instanceName"

  predicate Labelled(m: Meta, instance: string) {
    INSTANCE_LABEL in m.labels && m.labels[INSTANCE_LABEL] == instance
  }

  function Relabel(m: Meta, instance: string): Meta {
    m.(labels := m.labels[INSTANCE_LABEL := instance])
  }

  function NewMeta(uid: nat, finalizers: seq<string>, owners: seq<OwnerRef>): Meta {
    Meta(uid, map[], finalizers, owners, false)
  }

  function WriteOpBackup(s: State, n: string, w: Write): (r: State)
    requires n in s.opBackups
    ensures r == s.(opBackups := r.opBackups) && OnlyAt(s.opBackups, r.opBackups, n)
    ensures Get(r.opBackups, n) == match w { case Rejected => Some(s.opBackups[n]) case Removed => None
                                             case Stored(m) => Some(s.opBackups[n].(meta := m)) }
    ensures w == Stored(s.opBackups[n].meta) ==> r == s
  {
    match w
    case Rejected => s
    case Removed => s.(opBackups := s.opBackups - {n})
    case Stored(m) =>
      assert m == s.opBackups[n].meta ==> s.opBackups[n := s.opBackups[n].(meta := m)] == s.opBackups;
      s.(opBackups := s.opBackups[n := s.opBackups[n].(meta := m)])
  }

  function WriteOpRestore(s: State, n: string, w: Write): (r: State)
    requires n in s.opRestores
    ensures r == s.(opRestores := r.opRestores) && OnlyAt(s.opRestores, r.opRestores, n)
    ensures Get(r.opRestores, n) == match w { case Rejected => Some(s.opRestores[n]) case Removed => None
                                             case Stored(m) => Some(s.opRestores[n].(meta := m)) }
    ensures w == Stored(s.opRestores[n].meta) ==> r == s
  {
    match w
    case Rejected => s
    case Removed => s.(opRestores := s.opRestores - {n})
    case Stored(m) =>
      assert m == s.opRestores[n].meta ==> s.opRestores[n := s.opRestores[n].(meta := m)] == s.opRestores;
      s.(opRestores := s.opRestores[n := s.opRestores[n].(meta := m)])
  }

  function WriteCluster(s: State, n: string, w: Write): (r: State)
    requires n in s.clusters
    ensures r == s.(clusters := r.clusters) && OnlyAt(s.clusters, r.clusters, n)
    ensures Get(r.clusters, n) == match w { case Rejected => Some(s.clusters[n]) case Removed => None
                                             case Stored(m) => Some(s.clusters[n].(meta := m)) }
    ensures w == Stored(s.clusters[n].meta) ==> r == s
  {
    match w
    case Rejected => s
    case Removed => s.(clusters := s.clusters - {n})
    case Stored(m) =>
      assert m == s.clusters[n].meta ==> s.clusters[n := s.clusters[n].(meta := m)] == s.clusters;
      s.(clusters := s.clusters[n := s.clusters[n].(meta := m)])
  }

  // --------------------------------------------------------------- SyncBackup

  function BackupOwner(n: string, b: Backup): OwnerRef {
    OwnerRef(BackupKind, n, b.meta.uid, true)
  }

  predicate StorageRegistered(s: State, b: Backup) {
    && b.instance in s.clusters
    && s.clusters[b.instance].spec.backup.Some?
    && b.storage in s.clusters[b.instance].spec.backup.value.storages
  }

  function WithPolicy(finalizers: seq<string>, retain: bool): seq<string> {
    if retain then RemoveFinalizer(finalizers, DELETE_BACKUP) else AddFinalizer(finalizers, DELETE_BACKUP)
  }

  function NewOpBackup(n: string, b: Backup, btype: string, uid: nat): OpBackup {
    var finalizers := if b.retain then [] else [DELETE_BACKUP];
    OpBackup(NewMeta(uid, finalizers, [BackupOwner(n, b)]), btype, b.instance, b.storage, OpNew, None)
  }

  /** The stored metadata of an operator backup once SyncBackup has patched it;
      None when it belongs to another controller. */
  function Adopted(n: string, b: Backup, m: Meta): Option<Write> {
    match SetControllerReference(m.owners, BackupOwner(n, b))
    case None => None
    case Some(owners) => Some(ServerWrite(m, WithPolicy(m.finalizers, b.retain), owners))
  }

  /** A Backup before and after a call that at most labels it. */
  ghost predicate Touched(m: Meta, m': Meta) {
    m' == m.(labels := m'.labels)
  }

  /** All that a SyncBackup call can do to its operator backup: leave it alone,
      create it, or patch its metadata. */
  ghost predicate OpBackupCase(s: State, n: string, r: Synced)
    requires n in s.backups
  {
    var b, op, op' := s.backups[n], Get(s.opBackups, n), Get(r.s.opBackups, n);
    || (&& op' == op && r.s.nextUid == s.nextUid
        && (|| r.out == Failure
            || (op.Some? && b.schedule != "" && r.out == ReportOf(op.value.status, op.value.completedAt))
            || (op.None? && r.out == WAITING && (b.schedule != "" || !StorageRegistered(s, b)))
            || (op.None? && r.out == REFUSED && b.schedule == "" && StorageRegistered(s, b)
                && T.ResolveBackupType(b.parameters).None?)))
    || (&& op.None? && b.schedule == "" && StorageRegistered(s, b) && r.s.nextUid == s.nextUid + 1
        && T.ResolveBackupType(b.parameters).Some?
        && op' == Some(NewOpBackup(n, b, T.ResolveBackupType(b.parameters).value, s.nextUid))
        && (r.out == Failure || r.out == ReportOf(OpNew, None)))
    || (&& op.Some? && b.schedule == "" && r.s.nextUid == s.nextUid
        && (var w := Adopted(n, b, op.value.meta);
            && w.Some? && !w.value.Rejected?
            && op' == (if w.value.Removed? then None else Some(op.value.(meta := w.value.meta))))
        && r.out == ReportOf(op.value.status, op.value.completedAt))
  }

  /** The operator backup belongs to another controller, or is being deleted and
      may not take the finalizer any more. */
  predicate BackupConflict(s: State, n: string)
    requires n in s.backups
  {
    n in s.opBackups && s.backups[n].schedule == "" &&
    match Adopted(n, s.backups[n], s.opBackups[n].meta)
    case None => true
    case Some(w) => w.Rejected?
  }

  lemma AdoptedNew(n: string, b: Backup, btype: string, uid: nat)
    ensures var m := NewOpBackup(n, b, btype, uid).meta;
            Adopted(n, b, m) == Some(Stored(m))
  {
    SoleController(BackupOwner(n, b));
  }

  /** A store in which only the labels of one Backup differ. */
  ghost predicate BackupRelabelled(s: State, s1: State, n: string) {
    && n in s.backups && n in s1.backups && s1 == s.(backups := s1.backups)
    && s1.backups[n] == s.backups[n].(meta := s1.backups[n].meta) && Touched(s.backups[n].meta, s1.backups[n].meta)
  }

  lemma OpBackupCaseRelabelled(s: State, s1: State, n: string, r: Synced)
    requires BackupRelabelled(s, s1, n) && OpBackupCase(s1, n, r)
    ensures OpBackupCase(s, n, r) && (BackupConflict(s1, n) <==> BackupConflict(s, n))
  {
  }

  function SyncBackup(s: State, n: string, k: nat): (r: Synced)
    requires n in s.backups
    ensures r.s == s.(backups := r.s.backups, opBackups := r.s.opBackups, nextUid := r.s.nextUid)
    ensures OnlyAt(s.opBackups, r.s.opBackups, n) && OnlyAt(s.backups, r.s.backups, n) && n in r.s.backups
    ensures BackupRelabelled(s, s.(backups := r.s.backups), n)
    ensures OpBackupCase(s, n, r)
    ensures k >= 6 ==> (r.out == Failure <==> BackupConflict(s, n))
  {
    var b := s.backups[n];
    if Labelled(b.meta, b.instance) then SyncLabelled(s, n, k)
    else if k == 0 then Synced(s, Failure)
    else
      var s1 := s.(backups := s.backups[n := b.(meta := Relabel(b.meta, b.instance))]);
      if k == 1 then Synced(s1, Failure)
      else
        OpBackupCaseRelabelled(s, s1, n, SyncLabelled(s1, n, k - 2));
        SyncLabelled(s1, n, k - 2)
  }

  function SyncLabelled(s: State, n: string, k: nat): (r: Synced)
    requires n in s.backups
    ensures r.s == s.(opBackups := r.s.opBackups, nextUid := r.s.nextUid)
    ensures OnlyAt(s.opBackups, r.s.opBackups, n) && OpBackupCase(s, n, r)
    ensures k >= 4 ==> (r.out == Failure <==> BackupConflict(s, n))
  {
    var b := s.backups[n];
    if k == 0 then Synced(s, Failure)
    else if n in s.opBackups then AdoptOpBackup(s, n, k - 1)
    else if b.schedule != "" then Synced(s, WAITING)
    else if k == 1 then Synced(s, Failure)
    else if !StorageRegistered(s, b) then Synced(s, WAITING)
    else match T.ResolveBackupType(b.parameters)
      case None => Synced(s, REFUSED)
      case Some(btype) =>
        if k == 2 then Synced(s, Failure)
        else
          AdoptedNew(n, b, btype, s.nextUid);
          var s1 := s.(opBackups := s.opBackups[n := NewOpBackup(n, b, btype, s.nextUid)], nextUid := s.nextUid + 1);
          AdoptOpBackup(s1, n, k - 3)
  }

  function AdoptOpBackup(s: State, n: string, k: nat): (r: Synced)
    requires n in s.backups && n in s.opBackups
    ensures r.s == s.(opBackups := r.s.opBackups)
    ensures OnlyAt(s.opBackups, r.s.opBackups, n) && OpBackupCase(s, n, r)
    ensures k >= 1 ==> (r.out == Failure <==> BackupConflict(s, n))
    ensures Adopted(n, s.backups[n], s.opBackups[n].meta) == Some(Stored(s.opBackups[n].meta)) ==>
              && r.s.opBackups == s.opBackups
              && (r.out == Failure || r.out == ReportOf(s.opBackups[n].status, s.opBackups[n].completedAt))
  {
    var b, op := s.backups[n], s.opBackups[n];
    if b.schedule != "" then Synced(s, ReportOf(op.status, op.completedAt))
    else match Adopted(n, b, op.meta)
      case None => Synced(s, Failure)
      case Some(w) =>
        if k == 0 || w.Rejected? then Synced(s, Failure)
        else Synced(WriteOpBackup(s, n, w), ReportOf(op.status, op.completedAt))
  }

  /** A merge patch of an operator backup (section 2 of RFC 7396): only fields that
      differ are sent, lists as a whole. */
  datatype OpBackupPatch = OpBackupPatch(finalizers: Option<seq<string>>, owners: Option<seq<OwnerRef>>,
                                         btype: Option<string>, cluster: Option<string>, storage: Option<string>)

  function Sent<V(==)>(from: V, to: V): Option<V> { if from == to then None else Some(to) }

  function Kept<V>(now: V, sent: Option<V>): V { if sent.Some? then sent.value else now }

  function PatchBetween(from: OpBackup, to: OpBackup): OpBackupPatch {
    OpBackupPatch(Sent(from.meta.finalizers, to.meta.finalizers), Sent(from.meta.owners, to.meta.owners),
                  Sent(from.btype, to.btype), Sent(from.cluster, to.cluster), Sent(from.storage, to.storage))
  }

  /** The object as the patch leaves it, before the server's own rules. */
  function Merged(now: OpBackup, p: OpBackupPatch): OpBackup {
    now.(meta := now.meta.(finalizers := Kept(now.meta.finalizers, p.finalizers),
                           owners := Kept(now.meta.owners, p.owners)),
         btype := Kept(now.btype, p.btype), cluster := Kept(now.cluster, p.cluster),
         storage := Kept(now.storage, p.storage))
  }

  /** The server applies a patch; None when it refuses. */
  function PatchOpBackup(s: State, n: string, p: OpBackupPatch): Option<State> {
    if n !in s.opBackups then None
    else
      var o := Merged(s.opBackups[n], p);
      match ServerWrite(s.opBackups[n].meta, o.meta.finalizers, o.meta.owners)
      case Rejected => None
      case Removed => Some(s.(opBackups := s.opBackups - {n}))
      case Stored(m) => Some(s.(opBackups := s.opBackups[n := o.(meta := m)]))
  }

  /** The final part of SyncBackup for a copy that may be out of date. The patch is
      made from the copy and applied to what the server holds; the response carries
      the status. */
  function AdoptSeeing(s: State, n: string, seen: OpBackup, k: nat): Synced
    requires n in s.backups
  {
    var b := s.backups[n];
    if b.schedule != "" then Synced(s, ReportOf(seen.status, seen.completedAt))
    else match SetControllerReference(seen.meta.owners, BackupOwner(n, b))
      case None => Synced(s, Failure)
      case Some(owners) =>
        var wanted := seen.meta.(finalizers := WithPolicy(seen.meta.finalizers, b.retain), owners := owners);
        var patched := PatchOpBackup(s, n, PatchBetween(seen, seen.(meta := wanted)));
        if k == 0 || patched.None? then Synced(s, Failure)
        else Synced(patched.value, ReportOf(s.opBackups[n].status, s.opBackups[n].completedAt))
  }

  lemma AdoptCurrent(s: State, n: string, k: nat)
    requires n in s.backups && n in s.opBackups
    ensures AdoptSeeing(s, n, s.opBackups[n], k) == AdoptOpBackup(s, n, k)
  {
  }

  // -------------------------------------------------------------- SyncRestore

  /** Some(report) when the source cannot be used, now or ever. */
  function ResolveSource(s: State, r: Restore): Option<Outcome> {
    if r.source.OtherSource? || r.source.name == "" then Some(REFUSED)
    else if r.source.name !in s.backups then Some(WAITING)
    else
      var b := s.backups[r.source.name];
      if b.state == Failed || b.instance != r.instance then Some(REFUSED) else None
  }

  function RestoreOwner(n: string, r: Restore): OwnerRef {
    OwnerRef(RestoreKind, n, r.meta.uid, true)
  }

  function NewOpRestore(n: string, r: Restore, uid: nat): OpRestore
    requires r.source.FromBackup?
  {
    OpRestore(NewMeta(uid, [], [RestoreOwner(n, r)]), r.instance, r.source.name, OpNew, None)
  }

  /** All that a SyncRestore call can do to its operator restore. */
  ghost predicate OpRestoreCase(s: State, n: string, r: Synced)
    requires n in s.restores
  {
    var restore, op, op' := s.restores[n], Get(s.opRestores, n), Get(r.s.opRestores, n);
    || (op' == op && r.s.nextUid == s.nextUid && (r.out == Failure || ResolveSource(s, restore) == Some(r.out)))
    || (&& op.None? && ResolveSource(s, restore).None? && r.s.nextUid == s.nextUid + 1
        && op' == Some(NewOpRestore(n, restore, s.nextUid))
        && (r.out == Failure || r.out == ReportOf(OpNew, None)))
    || (&& op.Some? && ResolveSource(s, restore).None? && r.s.nextUid == s.nextUid
        && (var owners := SetControllerReference(op.value.meta.owners, RestoreOwner(n, restore));
            && owners.Some?
            && (var w := ServerWrite(op.value.meta, op.value.meta.finalizers, owners.value);
                op' == (if w.Removed? then None else if w.Rejected? then op else Some(op.value.(meta := w.meta)))))
        && r.out == ReportOf(op.value.status, op.value.completedAt))
  }

  /** The operator restore belongs to another controller. */
  predicate RestoreConflict(s: State, n: string)
    requires n in s.restores
  {
    && n in s.opRestores && ResolveSource(s, s.restores[n]).None?
    && SetControllerReference(s.opRestores[n].meta.owners, RestoreOwner(n, s.restores[n])).None?
  }

  /** A store in which only the labels of one Restore differ. */
  ghost predicate RestoreRelabelled(s: State, s1: State, n: string) {
    && n in s.restores && n in s1.restores && s1 == s.(restores := s1.restores)
    && s1.restores[n] == s.restores[n].(meta := s1.restores[n].meta)
    && Touched(s.restores[n].meta, s1.restores[n].meta)
  }

  lemma OpRestoreCaseRelabelled(s: State, s1: State, n: string, r: Synced)
    requires RestoreRelabelled(s, s1, n) && OpRestoreCase(s1, n, r)
    ensures OpRestoreCase(s, n, r) && (RestoreConflict(s1, n) <==> RestoreConflict(s, n))
  {
  }

  function SyncRestore(s: State, n: string, k: nat): (r: Synced)
    requires n in s.restores
    ensures r.s == s.(restores := r.s.restores, opRestores := r.s.opRestores, nextUid := r.s.nextUid)
    ensures OnlyAt(s.opRestores, r.s.opRestores, n) && OnlyAt(s.restores, r.s.restores, n) && n in r.s.restores
    ensures RestoreRelabelled(s, s.(restores := r.s.restores), n)
    ensures OpRestoreCase(s, n, r)
    ensures k >= 6 ==> (r.out == Failure <==> RestoreConflict(s, n))
  {
    var r := s.restores[n];
    if Labelled(r.meta, r.instance) then RestoreLabelled(s, n, k)
    else if k == 0 then Synced(s, Failure)
    else
      var s1 := s.(restores := s.restores[n := r.(meta := Relabel(r.meta, r.instance))]);
      if k == 1 then Synced(s1, Failure)
      else
        OpRestoreCaseRelabelled(s, s1, n, RestoreLabelled(s1, n, k - 2));
        RestoreLabelled(s1, n, k - 2)
  }

  function RestoreLabelled(s: State, n: string, k: nat): (r: Synced)
    requires n in s.restores
    ensures r.s == s.(opRestores := r.s.opRestores, nextUid := r.s.nextUid)
    ensures OnlyAt(s.opRestores, r.s.opRestores, n) && OpRestoreCase(s, n, r)
    ensures k >= 4 ==> (r.out == Failure <==> RestoreConflict(s, n))
  {
    var r := s.restores[n];
    if r.source.OtherSource? || r.source.name == "" then Synced(s, REFUSED)
    else if k == 0 then Synced(s, Failure)
    else match ResolveSource(s, r)
      case Some(report) => Synced(s, report)
      case None =>
        if k == 1 then Synced(s, Failure)
        else if n in s.opRestores then AdoptOpRestore(s, n, k - 2)
        else if k == 2 then Synced(s, Failure)
        else
          var s1 := s.(opRestores := s.opRestores[n := NewOpRestore(n, r, s.nextUid)], nextUid := s.nextUid + 1);
          AdoptOpRestore(s1, n, k - 3)
  }

  function AdoptOpRestore(s: State, n: string, k: nat): (r: Synced)
    requires n in s.restores && n in s.opRestores && ResolveSource(s, s.restores[n]).None?
    ensures r.s == s.(opRestores := r.s.opRestores)
    ensures OnlyAt(s.opRestores, r.s.opRestores, n) && OpRestoreCase(s, n, r)
    ensures k >= 1 ==> (r.out == Failure <==> RestoreConflict(s, n))
    ensures s.opRestores[n].meta.owners == [RestoreOwner(n, s.restores[n])] && !s.opRestores[n].meta.deleting ==>
              && r.s.opRestores == s.opRestores
              && (r.out == Failure || r.out == ReportOf(s.opRestores[n].status, s.opRestores[n].completedAt))
  {
    var r, op := s.restores[n], s.opRestores[n];
    SoleController(RestoreOwner(n, r));
    match SetControllerReference(op.meta.owners, RestoreOwner(n, r))
    case None => Synced(s, Failure)
    case Some(owners) =>
      if k == 0 then Synced(s, Failure)
      else Synced(WriteOpRestore(s, n, ServerWrite(op.meta, op.meta.finalizers, owners)),
                  ReportOf(op.status, op.completedAt))
  }

  /** The same for a copy of the operator restore that may be out of date: the patch
      can only carry owner references. */
  function AdoptRestoreSeeing(s: State, n: string, seen: OpRestore, k: nat): Synced
    requires n in s.restores
  {
    match SetControllerReference(seen.meta.owners, RestoreOwner(n, s.restores[n]))
    case None => Synced(s, Failure)
    case Some(owners) =>
      if k == 0 || n !in s.opRestores then Synced(s, Failure)
      else
        var now := s.opRestores[n];
        Synced(WriteOpRestore(s, n, ServerWrite(now.meta, now.meta.finalizers,
                                                Kept(now.meta.owners, Sent(seen.meta.owners, owners)))),
               ReportOf(now.status, now.completedAt))
  }

  lemma AdoptCurrentRestore(s: State, n: string, k: nat)
    requires n in s.restores && n in s.opRestores && ResolveSource(s, s.restores[n]).None?
    ensures AdoptRestoreSeeing(s, n, s.opRestores[n], k) == AdoptOpRestore(s, n, k)
  {
  }

  // ------------------------------------------------------------------ cleanup

  /** Marked for deletion, with finalizers left to wait for. */
  ghost predicate Marked(m: Meta, m': Meta) {
    m' == m.(deleting := true) && m.finalizers != []
  }

  /** All that a CleanupBackup call can do: nothing, strip the delete-backup
      finalizer under the Retain policy, or also request deletion. */
  ghost predicate CleanupCase(s: State, n: string, r: Cleaned)
    requires n in s.backups
  {
    var op, op' := Get(s.opBackups, n), Get(r.s.opBackups, n);
    && (r.out == Some(true) ==> op.None?)
    && (|| op' == op
        || (&& op.Some?
            && var m := op.value.meta;
               var kept := if s.backups[n].retain then RemoveFinalizer(m.finalizers, DELETE_BACKUP) else m.finalizers;
               if op'.None? then kept == []
               else op'.value == op.value.(meta := m.(finalizers := kept, deleting := op'.value.meta.deleting))
                    && (m.deleting ==> op'.value.meta.deleting) && (op'.value.meta.deleting ==> kept != [])))
  }

  /** What an undisturbed call leaves behind: under Retain the object without its
      delete-backup finalizer, and marked for deletion unless nothing holds it. */
  ghost predicate CleanedUp(s: State, n: string, r: Cleaned)
    requires n in s.backups
  {
    && r.out == Some(n !in s.opBackups)
    && (n in s.opBackups ==>
          var m := s.opBackups[n].meta;
          var kept := if s.backups[n].retain then RemoveFinalizer(m.finalizers, DELETE_BACKUP) else m.finalizers;
          Get(r.s.opBackups, n) == if kept == [] && (m.deleting ==> m.finalizers != []) then None
                                   else Some(s.opBackups[n].(meta := m.(finalizers := kept, deleting := true))))
  }

  function CleanupBackup(s: State, n: string, k: nat): (r: Cleaned)
    requires n in s.backups
    ensures r.s == s.(opBackups := r.s.opBackups) && OnlyAt(s.opBackups, r.s.opBackups, n)
    ensures CleanupCase(s, n, r)
    ensures k >= 3 ==> CleanedUp(s, n, r)
  {
    if k == 0 then Cleaned(s, None)
    else if n !in s.opBackups then Cleaned(s, Some(true))
    else if s.backups[n].retain && DELETE_BACKUP in s.opBackups[n].meta.finalizers then
      if k == 1 then Cleaned(s, None)
      else
        var m := s.opBackups[n].meta;
        var s1 := WriteOpBackup(s, n, ServerWrite(m, RemoveFinalizer(m.finalizers, DELETE_BACKUP), m.owners));
        DeleteOpBackup(s1, n, m.deleting, k - 2)
    else DeleteOpBackup(s, n, s.opBackups[n].meta.deleting, k - 1)
  }

  function DeleteOpBackup(s: State, n: string, deleting: bool, k: nat): (r: Cleaned)
    ensures r.s == s.(opBackups := r.s.opBackups) && OnlyAt(s.opBackups, r.s.opBackups, n) && r.out != Some(true)
    ensures Get(r.s.opBackups, n) == Get(s.opBackups, n)
         || (n in s.opBackups && !deleting
             && Get(r.s.opBackups, n) == if s.opBackups[n].meta.finalizers == [] then None
                                         else Some(s.opBackups[n].(meta := s.opBackups[n].meta.(deleting := true))))
  {
    if deleting then Cleaned(s, Some(false))
    else if k == 0 then Cleaned(s, None)
    else if n !in s.opBackups then Cleaned(s, Some(false))
    else Cleaned(WriteOpBackup(s, n, ServerDelete(s.opBackups[n].meta)), Some(false))
  }

  function CleanupRestore(s: State, n: string, k: nat): (r: Cleaned)
    ensures r.s == s.(opRestores := r.s.opRestores) && OnlyAt(s.opRestores, r.s.opRestores, n)
    ensures r.out == Some(true) ==> n !in s.opRestores && r.s == s
    ensures n !in s.opRestores ==> r.s == s
    ensures n in s.opRestores && r.s != s ==>
              && !s.opRestores[n].meta.deleting
              && (if n !in r.s.opRestores then s.opRestores[n].meta.finalizers == []
                  else && r.s.opRestores[n] == s.opRestores[n].(meta := r.s.opRestores[n].meta)
                       && Marked(s.opRestores[n].meta, r.s.opRestores[n].meta))
  {
    if k == 0 then Cleaned(s, None)
    else if n !in s.opRestores then Cleaned(s, Some(true))
    else if s.opRestores[n].meta.deleting then Cleaned(s, Some(false))
    else if k == 1 then Cleaned(s, None)
    else Cleaned(WriteOpRestore(s, n, ServerDelete(s.opRestores[n].meta)), Some(false))
  }

  /** Cleanup of an Instance: finished when there is no cluster, waiting otherwise. */
  function CleanupInstance(s: State, n: string, k: nat): (r: Cleaned)
    ensures r.s == s.(clusters := r.s.clusters) && OnlyAt(s.clusters, r.s.clusters, n)
    ensures r.out == Some(true) ==> n !in s.clusters && r.s == s
    ensures n !in s.clusters ==> r.s == s
    ensures n in s.clusters && r.s != s ==>
              && !s.clusters[n].meta.deleting
              && (if n !in r.s.clusters then s.clusters[n].meta.finalizers == []
                  else && r.s.clusters[n] == s.clusters[n].(meta := r.s.clusters[n].meta)
                       && Marked(s.clusters[n].meta, r.s.clusters[n].meta))
  {
    if k == 0 then Cleaned(s, None)
    else if n !in s.clusters then Cleaned(s, Some(true))
    else if s.clusters[n].meta.deleting then Cleaned(s, Some(false))
    else if k == 1 then Cleaned(s, None)
    else Cleaned(WriteCluster(s, n, ServerDelete(s.clusters[n].meta)), Some(false))
  }

  // --------------------------------------------------------------------- Sync

  predicate Active(r: Restore, instance: string) {
    r.instance == instance && !r.meta.deleting && !Terminal(r.state)
  }

  predicate ActiveRestore(s: State, instance: string) {
    exists r :: r in s.restores && Active(s.restores[r], instance)
  }

  function CurrentSpec(s: State, n: string): Option<ClusterSpec> {
    if n in s.clusters then Some(s.clusters[n].spec) else None
  }

  function Apply(s: State, n: string, spec: ClusterSpec): (r: State)
    ensures r == s.(clusters := r.clusters, nextUid := r.nextUid) && OnlyAt(s.clusters, r.clusters, n)
    ensures n in r.clusters && r.clusters[n].spec == spec
    ensures if n in s.clusters then r.clusters[n].meta == s.clusters[n].meta && r.nextUid == s.nextUid
            else r.clusters[n].meta == NewMeta(s.nextUid, [], []) && r.nextUid == s.nextUid + 1
  {
    if n in s.clusters then s.(clusters := s.clusters[n := s.clusters[n].(spec := spec)])
    else s.(clusters := s.clusters[n := Cluster(NewMeta(s.nextUid, [], []), spec)], nextUid := s.nextUid + 1)
  }

  /** Sync: leaves the cluster alone while a restore is active, otherwise applies
      the translation. Only the final Apply writes. */
  function Sync(s: State, n: string, w: World): (r: State)
    requires n in s.instances
    ensures r == s || (&& !ActiveRestore(s, n) && T.BuildCluster(n, s.instances[n], w).Ok?
                       && r == Apply(s, n, T.BuildCluster(n, s.instances[n], w).value))
  {
    if ActiveRestore(s, n) then s
    else match T.BuildCluster(n, s.instances[n], w)
      case Err(_) => s
      case Ok(spec) => Apply(s, n, spec)
  }

  /** What the runtime does with an Instance: Validate, then Sync. */
  function Reconcile(s: State, n: string, w: World): (r: State)
    requires n in s.instances
    ensures if !ActiveRestore(s, n) && T.Validate(n, s.instances[n], CurrentSpec(s, n), w).None?
               && T.BuildCluster(n, s.instances[n], w).Ok?
            then r == Apply(s, n, T.BuildCluster(n, s.instances[n], w).value)
            else r == s
  {
    if T.Validate(n, s.instances[n], CurrentSpec(s, n), w).Some? then s else Sync(s, n, w)
  }

  // ------------------------------------------------------------------- Mirror

  const LABEL_TYPE := "percona.com/backup-type"
  const LABEL_ANCESTOR := "percona.com/backup-ancestor"
  const CRON := "cron"

  function LabelOf(m: Meta, key: string): string {
    if key in m.labels then m.labels[key] else ""
  }

  /** The schedule that produced an operator backup, None for on-demand ones.
      hash is the five-character prefix of the cluster. */
  function ScheduledBackupName(n: string, m: Meta, hash: string): Option<string> {
    if LabelOf(m, LABEL_TYPE) != CRON then None
    else
      var ancestor := LabelOf(m, LABEL_ANCESTOR);
      var prefix := hash + "-";
      if ancestor == "" then Some(n)
      else if prefix <= ancestor then Some(ancestor[|prefix|..])
      else Some(ancestor)
  }

  predicate ControlledByBackup(m: Meta) {
    exists i :: 0 <= i < |m.owners| && m.owners[i].controller && m.owners[i].kind == BackupKind
  }

  function Mirror(s: State, n: string, hash: string): Option<Backup>
    requires n in s.opBackups
  {
    var op := s.opBackups[n];
    var schedule := ScheduledBackupName(n, op.meta, hash);
    if op.meta.deleting || schedule.None? || ControlledByBackup(op.meta) then None
    else if op.cluster !in s.instances then None
    else
      var inst := s.instances[op.cluster];
      if inst.deleting || inst.provider != PROVIDER || inst.backup.None? || inst.backup.value.className == "" then None
      else if op.storage == "" then None
      else Some(Backup(NewMeta(s.nextUid, [], [OwnerRef(OpBackupKind, n, op.meta.uid, false)]),
                       op.cluster, op.storage, schedule.value, inst.backup.value.className, NoBackupParameters, false,
                       Unset))
  }

  // -------------------------------------------------------------------- steps

  datatype Target = ClusterObject | BackupObject | RestoreObject

  datatype Step =
    // The provider, called by the runtime. saved: the returned state is written.
    | ReconcileInstance(name: string, w: World)
    | FinishInstance(name: string, k: nat)
    | ReconcileBackup(name: string, k: nat, saved: bool)
    | FinishBackup(name: string, k: nat, saved: bool)
    | ReconcileRestore(name: string, k: nat, saved: bool)
    | FinishRestore(name: string, k: nat, saved: bool)
    | MirrorBackup(name: string, hash: string)
    // Users.
    | PutInstance(name: string, inst: Instance)
    | CreateBackup(name: string, backup: Backup)
    | EditBackup(name: string, backup: Backup)
    | CreateRestore(name: string, restore: Restore)
    | EditRestore(name: string, restore: Restore)
    | DeleteBackup(name: string)
    | DeleteRestore(name: string)
    // The operator, or someone acting on its objects directly.
    | FireSchedule(name: string, cluster: string, index: nat, hash: string, finalizers: seq<string>, labelled: bool)
    | AdvanceBackup(name: string, status: OpState, completedAt: Option<nat>)
    | AdvanceRestore(name: string, status: OpState, completedAt: Option<nat>)
    | SetPause(name: string, pause: bool)
    | Purge(name: string)
    | PutFinalizer(target: Target, name: string, finalizer: string)
    | DropFinalizer(target: Target, name: string, finalizer: string)
    | RequestDelete(target: Target, name: string)

  function SaveBackupState(s: State, n: string, out: Outcome): State {
    if n in s.backups && out.Report? then s.(backups := s.backups[n := s.backups[n].(state := out.state)]) else s
  }

  function SaveRestoreState(s: State, n: string, out: Outcome): State {
    if n in s.restores && out.Report? then s.(restores := s.restores[n := s.restores[n].(state := out.state)]) else s
  }

  function DoReconcileBackup(s: State, n: string, k: nat, saved: bool): (r: State)
    requires n in s.backups
    ensures r == s.(backups := r.backups, opBackups := r.opBackups, nextUid := r.nextUid) && s.nextUid <= r.nextUid
  {
    var r := SyncBackup(s, n, k);
    if saved then SaveBackupState(r.s, n, r.out) else r.s
  }

  function DoReconcileRestore(s: State, n: string, k: nat, saved: bool): (r: State)
    requires n in s.restores
    ensures r == s.(restores := r.restores, opRestores := r.opRestores, nextUid := r.nextUid) && s.nextUid <= r.nextUid
  {
    var r := SyncRestore(s, n, k);
    if saved then SaveRestoreState(r.s, n, r.out) else r.s
  }

  /** The runtime lets go of an object only when its cleanup reports completion. */
  function DoFinishBackup(s: State, n: string, k: nat, saved: bool): (r: State)
    requires n in s.backups
    ensures r == s.(backups := r.backups, opBackups := r.opBackups)
  {
    var r := CleanupBackup(s, n, k);
    if saved && r.out == Some(true) then r.s.(backups := r.s.backups - {n}) else r.s
  }

  function DoFinishRestore(s: State, n: string, k: nat, saved: bool): (r: State)
    requires n in s.restores
    ensures r == s.(restores := r.restores, opRestores := r.opRestores)
  {
    var r := CleanupRestore(s, n, k);
    if saved && r.out == Some(true) then r.s.(restores := r.s.restores - {n}) else r.s
  }

  function DoFinishInstance(s: State, n: string, k: nat): (r: State)
    ensures r == s.(instances := r.instances, clusters := r.clusters)
  {
    var r := CleanupInstance(s, n, k);
    if r.out == Some(true) then r.s.(instances := r.s.instances - {n}) else r.s
  }

  function DoMirror(s: State, n: string, hash: string): State
    requires n in s.opBackups
  {
    match Mirror(s, n, hash)
    case None => s
    case Some(b) => if n in s.backups then s else s.(backups := s.backups[n := b], nextUid := s.nextUid + 1)
  }

  /** A new scheduled backup, following the operator's label and storage convention. */
  function Fired(sched: OpSchedule, cluster: string, hash: string, finalizers: seq<string>, labelled: bool,
                 uid: nat): OpBackup
  {
    var ancestor := if labelled then map[LABEL_ANCESTOR := hash + "-" + sched.name] else map[];
    var labels := map[LABEL_TYPE := CRON] + ancestor;
    OpBackup(NewMeta(uid, finalizers, []).(labels := labels), sched.btype, cluster, sched.storage, OpNew, None)
  }

  function DoFire(s: State, st: Step): (r: State)
    requires st.FireSchedule?
    ensures r == s.(opBackups := r.opBackups, nextUid := r.nextUid) && s.nextUid <= r.nextUid
  {
    if st.cluster !in s.clusters || s.clusters[st.cluster].spec.backup.None? then s
    else
      var schedules := s.clusters[st.cluster].spec.backup.value.schedules;
      if st.index >= |schedules| || st.name in s.opBackups || st.name == "" || |st.hash| != 5 then s
      else
        var op := Fired(schedules[st.index], st.cluster, st.hash, st.finalizers, st.labelled, s.nextUid);
        s.(opBackups := s.opBackups[st.name := op], nextUid := s.nextUid + 1)
  }

  /** Purging deletes the data in storage, then drops the finalizer. */
  predicate PurgeEnabled(s: State, n: string) {
    n in s.opBackups && s.opBackups[n].meta.deleting && DELETE_BACKUP in s.opBackups[n].meta.finalizers
  }

  function DoPurge(s: State, n: string): (r: State)
    ensures r == s.(opBackups := r.opBackups, purged := r.purged)
  {
    if !PurgeEnabled(s, n) then s
    else
      var m := s.opBackups[n].meta;
      WriteOpBackup(s.(purged := s.purged + {m.uid}), n,
                    ServerWrite(m, RemoveFinalizer(m.finalizers, DELETE_BACKUP), m.owners))
  }

  /** Only finalizers changed, and an object being deleted gained none. */
  ghost predicate Refinalized(m: Meta, m': Meta) {
    m' == m.(finalizers := m'.finalizers) && (m.deleting ==> forall f :: f in m'.finalizers ==> f in m.finalizers)
  }

  /** Writes new finalizers onto one of the operator's objects. */
  function Refinalize(s: State, target: Target, n: string, change: seq<string> -> seq<string>): (r: State)
    ensures target.ClusterObject? ==>
              r == s.(clusters := r.clusters) && OnlyAt(s.clusters, r.clusters, n) && (n !in s.clusters ==> r == s)
    ensures target.ClusterObject? && n in s.clusters ==> if n !in r.clusters then s.clusters[n].meta.deleting
              else && r.clusters[n] == s.clusters[n].(meta := r.clusters[n].meta)
                   && Refinalized(s.clusters[n].meta, r.clusters[n].meta)
    ensures target.BackupObject? ==>
              r == s.(opBackups := r.opBackups) && OnlyAt(s.opBackups, r.opBackups, n) && (n !in s.opBackups ==> r == s)
    ensures target.BackupObject? && n in s.opBackups ==> if n !in r.opBackups then s.opBackups[n].meta.deleting
              else && r.opBackups[n] == s.opBackups[n].(meta := r.opBackups[n].meta)
                   && Refinalized(s.opBackups[n].meta, r.opBackups[n].meta)
    ensures target.RestoreObject? ==>
              && r == s.(opRestores := r.opRestores) && OnlyAt(s.opRestores, r.opRestores, n)
              && (n !in s.opRestores ==> r == s)
    ensures target.RestoreObject? && n in s.opRestores ==> if n !in r.opRestores then s.opRestores[n].meta.deleting
              else && r.opRestores[n] == s.opRestores[n].(meta := r.opRestores[n].meta)
                   && Refinalized(s.opRestores[n].meta, r.opRestores[n].meta)
  {
    match target
    case ClusterObject =>
      if n !in s.clusters then s
      else
        var m := s.clusters[n].meta;
        WriteCluster(s, n, ServerWrite(m, change(m.finalizers), m.owners))
    case BackupObject =>
      if n !in s.opBackups then s
      else
        var m := s.opBackups[n].meta;
        WriteOpBackup(s, n, ServerWrite(m, change(m.finalizers), m.owners))
    case RestoreObject =>
      if n !in s.opRestores then s
      else
        var m := s.opRestores[n].meta;
        WriteOpRestore(s, n, ServerWrite(m, change(m.finalizers), m.owners))
  }

  function DoRequestDelete(s: State, target: Target, n: string): (r: State)
    ensures target.ClusterObject? ==>
              r == s.(clusters := r.clusters) && OnlyAt(s.clusters, r.clusters, n) && (n !in s.clusters ==> r == s)
    ensures target.ClusterObject? && n in s.clusters ==> if n !in r.clusters then s.clusters[n].meta.finalizers == []
              else && r.clusters[n] == s.clusters[n].(meta := r.clusters[n].meta)
                   && Marked(s.clusters[n].meta, r.clusters[n].meta)
    ensures target.BackupObject? ==>
              r == s.(opBackups := r.opBackups) && OnlyAt(s.opBackups, r.opBackups, n) && (n !in s.opBackups ==> r == s)
    ensures target.BackupObject? && n in s.opBackups ==> if n !in r.opBackups then s.opBackups[n].meta.finalizers == []
              else && r.opBackups[n] == s.opBackups[n].(meta := r.opBackups[n].meta)
                   && Marked(s.opBackups[n].meta, r.opBackups[n].meta)
    ensures target.RestoreObject? ==>
              && r == s.(opRestores := r.opRestores) && OnlyAt(s.opRestores, r.opRestores, n)
              && (n !in s.opRestores ==> r == s)
    ensures target.RestoreObject? && n in s.opRestores ==>
              if n !in r.opRestores then s.opRestores[n].meta.finalizers == []
              else && r.opRestores[n] == s.opRestores[n].(meta := r.opRestores[n].meta)
                   && Marked(s.opRestores[n].meta, r.opRestores[n].meta)
  {
    match target
    case ClusterObject => if n in s.clusters then WriteCluster(s, n, ServerDelete(s.clusters[n].meta)) else s
    case BackupObject => if n in s.opBackups then WriteOpBackup(s, n, ServerDelete(s.opBackups[n].meta)) else s
    case RestoreObject => if n in s.opRestores then WriteOpRestore(s, n, ServerDelete(s.opRestores[n].meta)) else s
  }

  /** Users may edit a spec but not the identity, the status or the deletion mark;
      the schedule a Backup came from is fixed at creation. */
  function EditedBackup(was: Backup, want: Backup): Backup {
    was.(instance := want.instance, storage := want.storage, parameters := want.parameters, retain := want.retain)
  }

  /** The step's effect; a step whose precondition does not hold changes nothing. */
  function Next(s: State, st: Step): State {
    match st
    case ReconcileInstance(n, w) => if n in s.instances && !s.instances[n].deleting then Reconcile(s, n, w) else s
    case FinishInstance(n, k) => if n in s.instances && s.instances[n].deleting then DoFinishInstance(s, n, k) else s
    case ReconcileBackup(n, k, saved) =>
      if n in s.backups && !s.backups[n].meta.deleting then DoReconcileBackup(s, n, k, saved) else s
    case FinishBackup(n, k, saved) =>
      if n in s.backups && s.backups[n].meta.deleting then DoFinishBackup(s, n, k, saved) else s
    case ReconcileRestore(n, k, saved) =>
      if n in s.restores && !s.restores[n].meta.deleting then DoReconcileRestore(s, n, k, saved) else s
    case FinishRestore(n, k, saved) =>
      if n in s.restores && s.restores[n].meta.deleting then DoFinishRestore(s, n, k, saved) else s
    case MirrorBackup(n, hash) => if n in s.opBackups && |hash| == 5 then DoMirror(s, n, hash) else s
    case PutInstance(n, inst) => s.(instances := s.instances[n := inst])
    case CreateBackup(n, b) =>
      if n in s.backups then s
      else s.(backups := s.backups[n := b.(meta := NewMeta(s.nextUid, [], []), state := Unset)],
              nextUid := s.nextUid + 1)
    case EditBackup(n, b) =>
      if n in s.backups then s.(backups := s.backups[n := EditedBackup(s.backups[n], b)]) else s
    case CreateRestore(n, r) =>
      if n in s.restores then s
      else s.(restores := s.restores[n := r.(meta := NewMeta(s.nextUid, [], []), state := Unset)],
              nextUid := s.nextUid + 1)
    case EditRestore(n, r) =>
      if n in s.restores
      then s.(restores := s.restores[n := s.restores[n].(instance := r.instance, source := r.source)])
      else s
    case DeleteBackup(n) =>
      if n in s.backups
      then s.(backups := s.backups[n := s.backups[n].(meta := s.backups[n].meta.(deleting := true))])
      else s
    case DeleteRestore(n) =>
      if n in s.restores
      then s.(restores := s.restores[n := s.restores[n].(meta := s.restores[n].meta.(deleting := true))])
      else s
    case FireSchedule(_, _, _, _, _, _) => DoFire(s, st)
    case AdvanceBackup(n, status, at) =>
      if n in s.opBackups
      then s.(opBackups := s.opBackups[n := s.opBackups[n].(status := status, completedAt := at)])
      else s
    case AdvanceRestore(n, status, at) =>
      if n in s.opRestores
      then s.(opRestores := s.opRestores[n := s.opRestores[n].(status := status, completedAt := at)])
      else s
    case SetPause(n, pause) =>
      if n in s.clusters
      then s.(clusters := s.clusters[n := s.clusters[n].(spec := s.clusters[n].spec.(pause := pause))])
      else s
    case Purge(n) => DoPurge(s, n)
    case PutFinalizer(target, n, f) => Refinalize(s, target, n, fs => AddFinalizer(fs, f))
    case DropFinalizer(target, n, f) =>
      if target.BackupObject? && f == DELETE_BACKUP then s else Refinalize(s, target, n, fs => RemoveFinalizer(fs, f))
    case RequestDelete(target, n) => DoRequestDelete(s, target, n)
  }

  // --------------------------------------------------------------------- runs

  /** tr is what the store looks like before, between and after the steps. */
  ghost predicate IsRun(tr: seq<State>, steps: seq<Step>) {
    |tr| == |steps| + 1 && forall i :: 0 <= i < |steps| ==> tr[i + 1] == Next(tr[i], steps[i])
  }
}
