/** The way of a schedule through the operator back into a Backup. */
module Mirroring {
  import opened Kube
  import opened Instances
  import opened Protocol
  import opened Effects
  import opened Schedules

  // --------------------------------------------------------------- one event

  /** The Instance takes mirrored Backups: it is there and stays, belongs to this
      provider and has a backup class. */
  predicate InstanceMirrors(s: State, instance: string) {
    && instance in s.instances && !s.instances[instance].deleting
    && s.instances[instance].provider == "percona-server-mysql"
    && s.instances[instance].backup.Some? && s.instances[instance].backup.value.className != ""
  }

  /** The operator backup comes from a schedule and is nobody's on-demand backup. */
  predicate FromSchedule(op: OpBackup) {
    && "percona.com/backup-type" in op.meta.labels && op.meta.labels["percona.com/backup-type"] == "cron"
    && forall i :: 0 <= i < |op.meta.owners| ==> !(op.meta.owners[i].controller && op.meta.owners[i].kind == BackupKind)
  }

  predicate Mirrorable(s: State, n: string) {
    && n in s.opBackups && !s.opBackups[n].meta.deleting && s.opBackups[n].storage != ""
    && FromSchedule(s.opBackups[n]) && InstanceMirrors(s, s.opBackups[n].cluster)
  }

  /** The schedule that the labels tell: what follows the cluster's prefix, the whole
      ancestor under another prefix, or the backup's own name. */
  predicate ScheduleTold(n: string, labels: map<string, string>, hash: string, schedule: string) {
    var key := "percona.com/backup-ancestor";
    if key !in labels || labels[key] == "" then schedule == n
    else if hash + "-" <= labels[key] then labels[key] == hash + "-" + schedule
    else schedule == labels[key]
  }

  /** Which operator backups are mirrored, and into what. */
  lemma MirrorExact(s: State, n: string, hash: string)
    requires n in s.opBackups
    ensures Mirror(s, n, hash).Some? <==> Mirrorable(s, n)
    ensures Mirror(s, n, hash).Some? ==>
              var b, op := Mirror(s, n, hash).value, s.opBackups[n];
              && b.instance == op.cluster && b.storage == op.storage
              && b.className == s.instances[op.cluster].backup.value.className
              && ScheduleTold(n, op.meta.labels, hash, b.schedule)
              && b.meta.owners == [OwnerRef(OpBackupKind, n, op.meta.uid, false)]
              && b.parameters == NoBackupParameters && !b.retain && b.state == Unset
              && b.meta.labels == map[] && b.meta.finalizers == [] && !b.meta.deleting
  {
    var m, key := s.opBackups[n].meta, "percona.com/backup-ancestor";
    assert LabelOf(m, LABEL_ANCESTOR) == if key in m.labels then m.labels[key] else "";
  }

  /** The event adds that Backup exactly then, and changes nothing otherwise. */
  lemma MirrorStepExact(s: State, n: string, hash: string)
    requires |hash| == 5
    ensures var s' := Next(s, MirrorBackup(n, hash));
            if n in s.backups || !Mirrorable(s, n) then s' == s
            else Mirror(s, n, hash).Some? && s'.backups == s.backups[n := Mirror(s, n, hash).value]
  {
    if n in s.opBackups { MirrorExact(s, n, hash); }
    hide Mirror, Mirrorable;
  }

  // --------------------------------------------------------- over whole runs

  /** An operator backup keeps its labels, cluster and storage. */
  predicate FiredIs(s: State, n: string, u: nat, op: OpBackup) {
    && u < s.nextUid
    && (n in s.opBackups && s.opBackups[n].meta.uid == u ==>
          var now := s.opBackups[n];
          now.meta.labels == op.meta.labels && now.cluster == op.cluster && now.storage == op.storage)
  }

  lemma FiredStep(s: State, st: Step, n: string, u: nat, op: OpBackup)
    requires FiredIs(s, n, u, op)
    ensures FiredIs(Next(s, st), n, u, op)
  {
    OpBackupSteps(s, st, n);
    HistoryGrows(s, st);
    hide Next, SyncBackup, CleanupBackup, Mirror, Reported, StorageRegistered;
  }

  lemma {:induction false} FiredRun(tr: seq<State>, steps: seq<Step>, n: string, u: nat, op: OpBackup, i: nat, j: nat)
    requires IsRun(tr, steps) && i <= j <= |steps| && FiredIs(tr[i], n, u, op)
    ensures FiredIs(tr[j], n, u, op)
  {
    hide Next, FiredIs;
    if i < j {
      FiredRun(tr, steps, n, u, op, i, j - 1);
      FiredStep(tr[j - 1], steps[j - 1], n, u, op);
    }
  }

  /** The label convention and scheduledBackupName are inverse, for any prefix. */
  lemma ScheduleNameRoundTrip(sched: OpSchedule, n: string, cluster: string, hash: string, fs: seq<string>,
                              labelled: bool, u: nat)
    ensures ScheduledBackupName(n, Fired(sched, cluster, hash, fs, labelled, u).meta, hash)
         == Some(if labelled then sched.name else n)
  {
    var ancestor := hash + "-" + sched.name;
    assert ancestor[|hash + "-"|..] == sched.name;
    assert |ancestor| > 0;
  }

  /** The schedule of the cluster that this step fires, under a new name and with
      the operator's label. */
  predicate Fires(s: State, st: Step) {
    && st.FireSchedule? && st.labelled && st.name != "" && st.name !in s.opBackups && |st.hash| == 5
    && st.cluster in s.clusters && s.clusters[st.cluster].spec.backup.Some?
    && st.index < |s.clusters[st.cluster].spec.backup.value.schedules|
  }

  function FiredSchedule(s: State, st: Step): OpSchedule
    requires Fires(s, st)
  {
    s.clusters[st.cluster].spec.backup.value.schedules[st.index]
  }

  /** An event for the operator backup with identity u, which is still there, with no
      Backup in control of it and none of its name; its Instance takes Backups. */
  predicate Event(s: State, st: Step, n: string, u: nat, prefix: string -> string) {
    && n in s.opBackups && s.opBackups[n].meta.uid == u && !s.opBackups[n].meta.deleting
    && (forall o :: o in s.opBackups[n].meta.owners ==> !(o.controller && o.kind == BackupKind))
    && InstanceMirrors(s, s.opBackups[n].cluster) && n !in s.backups
    && st == MirrorBackup(n, prefix(s.opBackups[n].cluster))
  }

  lemma FiredStored(s: State, f: Step, s': State)
    requires Fires(s, f) && s' == Next(s, f)
    ensures f.name in s'.opBackups && s.nextUid < s'.nextUid
    ensures s'.opBackups[f.name] == Fired(FiredSchedule(s, f), f.cluster, f.hash, f.finalizers, true, s.nextUid)
  {
    hide Fired;
  }

  /** Schedule identity survives the round through the operator: when a schedule of
      the cluster fires and, any number of steps later, the event of the operator backup
      is handled, there is a new Backup, and it names that schedule, its storage, the
      cluster and the Instance's backup class. */
  lemma ScheduleIdentity(tr: seq<State>, steps: seq<Step>, i: nat, j: nat, prefix: string -> string)
    requires IsRun(tr, steps) && i < j < |steps|
    requires Fires(tr[i], steps[i]) && steps[i].hash == prefix(steps[i].cluster) && steps[i].cluster !in tr[0].clusters
    requires Event(tr[j], steps[j], steps[i].name, tr[i].nextUid, prefix)
    ensures var f, sched := steps[i], FiredSchedule(tr[i], steps[i]);
            && f.name in tr[j + 1].backups
            && var b := tr[j + 1].backups[f.name];
               && b.schedule == sched.name && b.storage == sched.storage && b.instance == f.cluster
               && b.className == tr[j].instances[f.cluster].backup.value.className
  {
    hide Next, Mirror, Fired;
    var f, n, sched, s := steps[i], steps[i].name, FiredSchedule(tr[i], steps[i]), tr[j];
    var op := Fired(sched, f.cluster, f.hash, f.finalizers, true, tr[i].nextUid);
    FiredStored(tr[i], f, tr[i + 1]);
    FiredRun(tr, steps, n, tr[i].nextUid, op, i + 1, j);
    SchedulesAskedFor(tr, steps, f.cluster, i, sched);
    FiredLabels(sched, f.cluster, f.hash, f.finalizers, tr[i].nextUid);
    var owners := s.opBackups[n].meta.owners;
    assert forall k :: 0 <= k < |owners| ==> owners[k] in owners;
    assert Mirrorable(s, n);
    MirrorStepExact(s, n, f.hash);
    MirrorExact(s, n, f.hash);
    ToldOnce(n, op.meta.labels, f.hash, sched.name, tr[j + 1].backups[n].schedule);
  }

  lemma FiredLabels(sched: OpSchedule, cluster: string, hash: string, fs: seq<string>, u: nat)
    ensures var op := Fired(sched, cluster, hash, fs, true, u);
            && op.cluster == cluster && op.storage == sched.storage
            && "percona.com/backup-type" in op.meta.labels && op.meta.labels["percona.com/backup-type"] == "cron"
            && ScheduleTold("", op.meta.labels, hash, sched.name)
            && "percona.com/backup-ancestor" in op.meta.labels && op.meta.labels["percona.com/backup-ancestor"] != ""
  {
  }

  lemma ToldOnce(n: string, labels: map<string, string>, hash: string, a: string, b: string)
    requires "percona.com/backup-ancestor" in labels && labels["percona.com/backup-ancestor"] != ""
    requires ScheduleTold("", labels, hash, a) && ScheduleTold(n, labels, hash, b)
    ensures a == b
  {
    var ancestor := labels["percona.com/backup-ancestor"];
    if hash + "-" <= ancestor {
      assert (hash + "-" + a)[|hash| + 1..] == a && (hash + "-" + b)[|hash| + 1..] == b;
    }
  }

  /** End to end: the mirrored Backup names a schedule, and that schedule's storage,
      which the Instance had enabled when the cluster was applied. */
  lemma MirroredWasEnabled(tr: seq<State>, steps: seq<Step>, i: nat, j: nat, prefix: string -> string)
    requires IsRun(tr, steps) && i < j < |steps|
    requires Fires(tr[i], steps[i]) && steps[i].hash == prefix(steps[i].cluster) && steps[i].cluster !in tr[0].clusters
    requires Event(tr[j], steps[j], steps[i].name, tr[i].nextUid, prefix)
    ensures steps[i].name in tr[j + 1].backups
    ensures var b := tr[j + 1].backups[steps[i].name];
            exists h, p :: 0 <= h < i && b.instance in tr[h].instances && tr[h].instances[b.instance].backup.Some?
                           && p in Enabled(tr[h].instances[b.instance].backup.value.storages)
                           && p.0 == b.storage && p.1.name == b.schedule && p.1.enabled
  {
    hide Next, Enabled, Mirror;
    var f, sched := steps[i], FiredSchedule(tr[i], steps[i]);
    ScheduleIdentity(tr, steps, i, j, prefix);
    SchedulesAskedFor(tr, steps, f.cluster, i, sched);
    var h, p :| 0 <= h < i && f.cluster in tr[h].instances && tr[h].instances[f.cluster].backup.Some?
                && p in Enabled(tr[h].instances[f.cluster].backup.value.storages) && Translates(p, sched);
  }

  /** An operator backup that SyncBackup created is never mirrored, however often its
      events are handled. */
  lemma OnDemandNeverMirrored(tr: seq<State>, steps: seq<Step>, n: string, i: nat, j: nat, hash: string)
    requires IsRun(tr, steps) && i < j <= |steps| && |hash| == 5
    requires steps[i].ReconcileBackup? && steps[i].name == n && n in tr[i].backups && !tr[i].backups[n].meta.deleting
    requires n !in tr[i].opBackups && n in SyncBackup(tr[i], n, steps[i].k).s.opBackups
    requires n in tr[j].opBackups && tr[j].opBackups[n].meta.uid == tr[i].nextUid
    ensures Next(tr[j], MirrorBackup(n, hash)) == tr[j]
  {
    hide Mirror, SyncBackup;
    var op := SyncBackup(tr[i], n, steps[i].k).s.opBackups[n];
    assert OpBackupCase(tr[i], n, SyncBackup(tr[i], n, steps[i].k));
    assert Get(SyncBackup(tr[i], n, steps[i].k).s.opBackups, n) == Some(op);
    assert tr[i + 1] == Next(tr[i], steps[i]);
    FiredRun(tr, steps, n, tr[i].nextUid, op, i + 1, j);
    MirrorStepExact(tr[j], n, hash);
    hide Next, OpBackupCase;
  }
}
