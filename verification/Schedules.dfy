/** Backup settings: what an Instance's plan becomes on the cluster, and the way of
    a schedule through the operator back into a Backup. */
module Schedules {
  import opened Kube
  import opened Instances
  import opened Protocol
  import opened Effects
  import T = Translation

  // --------------------------------------------- the translation of the plan

  /** The enabled schedules of all entries, each with its storage, in order. */
  function Enabled(entries: seq<StorageEntry>): (r: seq<(string, Schedule)>)
    ensures forall p :: p in r ==>
              && p.1.enabled
              && exists i :: 0 <= i < |entries| && entries[i].storage == p.0 && p.1 in entries[i].schedules
  {
    if entries == [] then []
    else
      var rest := Enabled(entries[1..]);
      assert forall i :: 0 <= i < |entries| - 1 ==> entries[1..][i] == entries[i + 1];
      assert entries[0] == entries[0];
      EnabledOf(entries[0].storage, entries[0].schedules) + rest
  }

  function EnabledOf(storage: string, ss: seq<Schedule>): (r: seq<(string, Schedule)>)
    ensures forall p :: p in r ==> p.0 == storage && p.1.enabled && p.1 in ss
  {
    if ss == [] then []
    else (if ss[0].enabled then [(storage, ss[0])] else []) + EnabledOf(storage, ss[1..])
  }

  /** How many schedules are enabled, counted entry by entry. */
  function EnabledCount(entries: seq<StorageEntry>): nat {
    if entries == [] then 0 else CountOf(entries[0].schedules) + EnabledCount(entries[1..])
  }

  function CountOf(ss: seq<Schedule>): nat {
    if ss == [] then 0 else (if ss[0].enabled then 1 else 0) + CountOf(ss[1..])
  }

  /** The operator schedule says what the Instance schedule says. */
  predicate Translates(p: (string, Schedule), o: OpSchedule) {
    && o.name == p.1.name && o.cron == p.1.cron && o.keep == p.1.copies && o.storage == p.0
    && T.ResolveBackupType(p.1.parameters) == Some(o.btype)
  }

  predicate TranslatesAll(ps: seq<(string, Schedule)>, os: seq<OpSchedule>) {
    |ps| == |os| && forall i :: 0 <= i < |ps| ==> Translates(ps[i], os[i])
  }

  function StorageNames(entries: seq<StorageEntry>): set<string> {
    set i | 0 <= i < |entries| :: entries[i].storage
  }

  /** An enabled schedule whose type is not known. */
  predicate UnknownType(ss: seq<Schedule>, i: int) {
    0 <= i < |ss| && ss[i].enabled && T.ResolveBackupType(ss[i].parameters).None?
  }

  lemma {:induction false} EnabledOfTranslated(storage: string, ss: seq<Schedule>)
    ensures |EnabledOf(storage, ss)| == CountOf(ss)
    ensures T.EnabledSchedules(storage, ss).Some? ==>
              TranslatesAll(EnabledOf(storage, ss), T.EnabledSchedules(storage, ss).value)
  {
    hide T.ResolveBackupType;
    if ss != [] { EnabledOfTranslated(storage, ss[1..]); }
  }

  lemma {:induction false} EnabledSucceeds(storage: string, ss: seq<Schedule>)
    ensures T.EnabledSchedules(storage, ss).None? <==> exists i :: UnknownType(ss, i)
  {
    hide T.ResolveBackupType;
    if ss != [] {
      EnabledSucceeds(storage, ss[1..]);
      if i :| UnknownType(ss[1..], i) { assert UnknownType(ss, i + 1); }
      if i :| UnknownType(ss, i) { assert i == 0 || UnknownType(ss[1..], i - 1); }
      assert T.EnabledSchedules(storage, ss).None?
        <==> UnknownType(ss, 0) || T.EnabledSchedules(storage, ss[1..]).None?;
    }
  }

  lemma KnownTypes(ss: seq<Schedule>)
    ensures (forall i :: !UnknownType(ss, i)) <==>
            forall x :: x in ss && x.enabled ==> T.ResolveBackupType(x.parameters).Some?
  {
    hide T.ResolveBackupType;
    if forall i :: !UnknownType(ss, i) {
      forall x | x in ss && x.enabled ensures T.ResolveBackupType(x.parameters).Some? {
        var i :| 0 <= i < |ss| && ss[i] == x;
        assert !UnknownType(ss, i);
      }
    }
  }

  /** r extends spec by exactly what the entries ask for. */
  predicate Extends(spec: BackupSpec, entries: seq<StorageEntry>, uid: string, w: World, r: BackupSpec) {
    && r.image == spec.image
    && r.storages.Keys == spec.storages.Keys + StorageNames(entries)
    && |r.schedules| == |spec.schedules| + EnabledCount(entries)
    && r.schedules[..|spec.schedules|] == spec.schedules
    && TranslatesAll(Enabled(entries), r.schedules[|spec.schedules|..])
    && (forall k :: k in StorageNames(entries) ==>
          T.StorageUsable(w, k) && r.storages[k] == OpStorage(T.TrimSlashes(w.storages[k].bucket), uid))
    && (forall k :: k in spec.storages && k !in StorageNames(entries) ==> r.storages[k] == spec.storages[k])
  }

  lemma {:induction false} RegisterExact(spec: BackupSpec, entries: seq<StorageEntry>, uid: string, w: World)
    requires T.RegisterStorages(spec, entries, uid, w).Some?
    ensures Extends(spec, entries, uid, w, T.RegisterStorages(spec, entries, uid, w).value)
    decreases |entries|
  {
    if entries != [] {
      var e := entries[0];
      EnabledOfTranslated(e.storage, e.schedules);
      var schedules := T.EnabledSchedules(e.storage, e.schedules).value;
      var storage := OpStorage(T.TrimSlashes(w.storages[e.storage].bucket), uid);
      var next := spec.(storages := spec.storages[e.storage := storage], schedules := spec.schedules + schedules);
      RegisterExact(next, entries[1..], uid, w);
      ExtendsFirst(spec, entries, schedules, storage, uid, w, T.RegisterStorages(next, entries[1..], uid, w).value);
      hide Extends;
    }
  }

  lemma ExtendsFirst(spec: BackupSpec, entries: seq<StorageEntry>, schedules: seq<OpSchedule>, storage: OpStorage,
                     uid: string, w: World, r: BackupSpec)
    requires entries != [] && T.StorageUsable(w, entries[0].storage)
    requires storage == OpStorage(T.TrimSlashes(w.storages[entries[0].storage].bucket), uid)
    requires |schedules| == CountOf(entries[0].schedules)
    requires TranslatesAll(EnabledOf(entries[0].storage, entries[0].schedules), schedules)
    requires Extends(spec.(storages := spec.storages[entries[0].storage := storage],
                           schedules := spec.schedules + schedules), entries[1..], uid, w, r)
    ensures Extends(spec, entries, uid, w, r)
  {
    hide T.TrimSlashes, TranslatesAll, Enabled, EnabledOf, T.StorageUsable;
    FirstName(entries);
    AppendTranslated(entries[0], entries[1..], spec.schedules, schedules, r.schedules);
    assert [entries[0]] + entries[1..] == entries;
    hide StorageNames;
  }

  lemma FirstName(entries: seq<StorageEntry>)
    requires entries != []
    ensures StorageNames(entries) == {entries[0].storage} + StorageNames(entries[1..])
  {
    assert forall i :: 0 < i < |entries| ==> entries[i] == entries[1..][i - 1];
    assert forall i :: 0 <= i < |entries| - 1 ==> entries[1..][i] == entries[i + 1];
  }

  lemma AppendTranslated(e: StorageEntry, rest: seq<StorageEntry>, before: seq<OpSchedule>, mine: seq<OpSchedule>,
                         all: seq<OpSchedule>)
    requires |before| + |mine| <= |all| && all[..|before| + |mine|] == before + mine
    requires TranslatesAll(EnabledOf(e.storage, e.schedules), mine)
    requires TranslatesAll(Enabled(rest), all[|before| + |mine|..])
    ensures all[..|before|] == before
    ensures TranslatesAll(Enabled([e] + rest), all[|before|..])
  {
    hide TranslatesAll;
    assert ([e] + rest)[1..] == rest;
    var tail := all[|before|..];
    assert tail[..|mine|] == mine by { assert (before + mine)[|before|..] == mine; }
    assert tail[|mine|..] == all[|before| + |mine|..];
    assert tail == mine + tail[|mine|..];
    TranslatesConcat(EnabledOf(e.storage, e.schedules), mine, Enabled(rest), tail[|mine|..]);
  }

  lemma TranslatesConcat(ps: seq<(string, Schedule)>, os: seq<OpSchedule>,
                         ps': seq<(string, Schedule)>, os': seq<OpSchedule>)
    requires TranslatesAll(ps, os) && TranslatesAll(ps', os')
    ensures TranslatesAll(ps + ps', os + os')
  {
    hide Translates;
  }

  /** A storage the operator can be given: there, of type S3, with credentials. */
  predicate UsableStorage(w: World, name: string) {
    name != "" && name in w.storages && w.storages[name].s3 && w.storages[name].credentials
  }

  /** The bucket without the slashes around it. */
  ghost predicate SlashesCut(s: string, r: string) {
    && (r != "" ==> r[0] != '/' && r[|r| - 1] != '/')
    && exists front, back :: AllSlashes(front) && AllSlashes(back) && s == front + r + back
  }

  predicate AllSlashes(s: string) {
    forall c :: c in s ==> c == '/'
  }

  lemma {:induction false} BucketTrimmed(s: string)
    ensures SlashesCut(s, T.TrimSlashes(s))
    decreases |s|
  {
    var r := T.TrimSlashes(s);
    if s != "" && s[0] == '/' {
      BucketTrimmed(s[1..]);
      var front, back :| AllSlashes(front) && AllSlashes(back) && s[1..] == front + r + back;
      assert s == (['/'] + front) + r + back && AllSlashes(['/'] + front);
    } else if s != "" && s[|s| - 1] == '/' {
      BucketTrimmed(s[..|s| - 1]);
      var front, back :| AllSlashes(front) && AllSlashes(back) && s[..|s| - 1] == front + r + back;
      assert s == front + r + (back + ['/']) && AllSlashes(back + ['/']);
    } else {
      assert s == "" + s + "" && AllSlashes("");
    }
  }

  /** Entry by entry and in order. */
  lemma {:induction false} EnabledInOrder(a: seq<StorageEntry>, b: seq<StorageEntry>)
    ensures Enabled(a + b) == Enabled(a) + Enabled(b)
  {
    if a == [] {
      assert a + b == b;
    } else {
      assert (a + b)[1..] == a[1..] + b;
      EnabledInOrder(a[1..], b);
    }
  }

  lemma {:induction false} EnabledOfInOrder(storage: string, a: seq<Schedule>, x: Schedule)
    ensures EnabledOf(storage, a + [x]) == EnabledOf(storage, a) + if x.enabled then [(storage, x)] else []
  {
    if a == [] {
      assert a + [x] == [x];
    } else {
      assert (a + [x])[1..] == a[1..] + [x];
      EnabledOfInOrder(storage, a[1..], x);
    }
  }

  /** Every entry names a usable storage and every enabled schedule a known type. */
  predicate Translatable(entries: seq<StorageEntry>, w: World) {
    forall i :: 0 <= i < |entries| ==>
      && UsableStorage(w, entries[i].storage)
      && forall x :: x in entries[i].schedules && x.enabled ==> T.ResolveBackupType(x.parameters).Some?
  }

  lemma {:induction false} RegisterSucceeds(spec: BackupSpec, entries: seq<StorageEntry>, uid: string, w: World)
    ensures T.RegisterStorages(spec, entries, uid, w).Some? <==> Translatable(entries, w)
    decreases |entries|
  {
    if entries != [] {
      var e := entries[0];
      EnabledSucceeds(e.storage, e.schedules);
      KnownTypes(e.schedules);
      if T.StorageUsable(w, e.storage) && T.EnabledSchedules(e.storage, e.schedules).Some? {
        var schedules := T.EnabledSchedules(e.storage, e.schedules).value;
        var storage := OpStorage(T.TrimSlashes(w.storages[e.storage].bucket), uid);
        RegisterSucceeds(spec.(storages := spec.storages[e.storage := storage],
                               schedules := spec.schedules + schedules), entries[1..], uid, w);
        assert forall i :: 0 < i < |entries| ==> entries[i] == entries[1..][i - 1];
        assert forall i :: 0 <= i < |entries| - 1 ==> entries[1..][i] == entries[i + 1];
      }
    }
  }

  /** The translation of an enabled plan is exact and all-or-nothing: it succeeds
      under these conditions alone, and then registers exactly the referenced
      storages and exactly the enabled schedules, in order, duplicates included. */
  lemma BackupSettingsExact(c: ClusterSpec, inst: Instance, w: World)
    requires inst.backup.Some? && inst.backup.value.enabled
    ensures var entries, r := inst.backup.value.storages, T.WithBackup(c, inst, w);
            && (r.Ok? <==> w.classAccepts && w.backupImage != "" && entries != [] && Translatable(entries, w))
            && (r.Ok? ==>
                  && r.value == c.(backup := r.value.backup) && r.value.backup.Some?
                  && var b := r.value.backup.value;
                     && b.storages.Keys == StorageNames(entries)
                     && b.image == w.backupImage
                     && (forall k :: k in b.storages ==>
                           && k in w.storages && b.storages[k].prefix == inst.uid
                           && SlashesCut(w.storages[k].bucket, b.storages[k].bucket))
                     && |b.schedules| == EnabledCount(entries)
                     && TranslatesAll(Enabled(entries), b.schedules)
                     && (forall i :: 0 <= i < |b.schedules| ==> b.schedules[i].storage in b.storages))
  {
    var entries := inst.backup.value.storages;
    var empty := BackupSpec(w.backupImage, map[], []);
    RegisterSucceeds(empty, entries, inst.uid, w);
    if T.RegisterStorages(empty, entries, inst.uid, w).Some? {
      RegisterExact(empty, entries, inst.uid, w);
      var b := T.RegisterStorages(empty, entries, inst.uid, w).value;
      assert b.schedules[0..] == b.schedules;
      forall k | k in b.storages
        ensures k in w.storages && b.storages[k].prefix == inst.uid
                && SlashesCut(w.storages[k].bucket, b.storages[k].bucket)
      {
        BucketTrimmed(w.storages[k].bucket);
      }
      forall i | 0 <= i < |b.schedules| ensures b.schedules[i].storage in StorageNames(entries) {
        var p := Enabled(entries)[i];
        assert p in Enabled(entries) && Translates(p, b.schedules[i]);
      }
    }
  }

  // ------------------------------------------------------------ into the cluster

  lemma BuiltBackup(name: string, inst: Instance, w: World)
    requires T.BuildCluster(name, inst, w).Ok?
    ensures var c := T.BuildCluster(name, inst, w).value;
            if inst.backup.None? || !inst.backup.value.enabled then c.backup.None?
            else && c.backup.Some? && c.backup.value.storages.Keys == StorageNames(inst.backup.value.storages)
                 && TranslatesAll(Enabled(inst.backup.value.storages), c.backup.value.schedules)
                 && (forall x :: x in c.backup.value.schedules ==> x.storage != "")
  {
    var c0 := T.EngineCluster(name, inst, w).value;
    var c1 := T.WithOrchestrator(c0, inst, w).value;
    var c2 := T.WithProxy(c1, inst, w).value;
    var c3 := T.WithMonitoring(c2, name, inst, w).value;
    if inst.backup.Some? && inst.backup.value.enabled {
      BackupSettingsExact(c3, inst, w);
      StorageNamed(inst.backup.value.storages, w);
    }
    hide T.EngineCluster, T.WithOrchestrator, T.WithProxy, T.WithMonitoring, T.RegisterStorages;
  }

  lemma StorageNamed(entries: seq<StorageEntry>, w: World)
    requires Translatable(entries, w)
    ensures "" !in StorageNames(entries)
  {
  }

  /** A reconcile of the Instance that gets through registers the storages that a
      waiting Backup waits for; the next error-free SyncBackup then creates the
      operator backup. */
  lemma SyncEndsTheWait(s: State, n: string, w: World, k: nat)
    requires n in s.backups && s.backups[n].schedule == "" && n !in s.opBackups
    requires T.ResolveBackupType(s.backups[n].parameters).Some?
    requires var i := s.backups[n].instance;
             && i in s.instances && !s.instances[i].deleting && !ActiveRestore(s, i)
             && T.Validate(i, s.instances[i], CurrentSpec(s, i), w).None? && T.BuildCluster(i, s.instances[i], w).Ok?
             && s.instances[i].backup.Some? && s.instances[i].backup.value.enabled
             && s.backups[n].storage in StorageNames(s.instances[i].backup.value.storages)
    ensures var s' := Next(s, ReconcileInstance(s.backups[n].instance, w));
            && n in s'.backups && StorageRegistered(s', s.backups[n])
            && (SyncBackup(s', n, k).out.Report? ==> n in SyncBackup(s', n, k).s.opBackups)
  {
    var i := s.backups[n].instance;
    BuiltBackup(i, s.instances[i], w);
    var s' := Next(s, ReconcileInstance(i, w));
    assert s' == Apply(s, i, T.BuildCluster(i, s.instances[i], w).value);
    hide SyncBackup, T.BuildCluster, T.Validate, Next;
    var r := SyncBackup(s', n, k);
    assert Get(r.s.opBackups, n).Some? <==> n in r.s.opBackups;
  }

  // --------------------------------------------------------- over whole runs

  /** Some earlier Instance asked for this schedule and had it enabled. */
  ghost predicate AskedFor(tr: seq<State>, i: nat, c: string, x: OpSchedule) {
    exists h, p :: 0 <= h < i <= |tr| && c in tr[h].instances && tr[h].instances[c].backup.Some?
                   && p in Enabled(tr[h].instances[c].backup.value.storages) && Translates(p, x)
  }

  /** Every schedule on every reachable cluster translates an enabled schedule that
      the Instance had when it was last applied. */
  lemma {:induction false} SchedulesAskedFor(tr: seq<State>, steps: seq<Step>, c: string, i: nat, x: OpSchedule)
    requires IsRun(tr, steps) && i <= |steps| && c !in tr[0].clusters
    requires c in tr[i].clusters && tr[i].clusters[c].spec.backup.Some?
             && x in tr[i].clusters[c].spec.backup.value.schedules
    ensures AskedFor(tr, i, c, x) && x.storage != ""
  {
    var s, st := tr[i - 1], steps[i - 1];
    ClusterSteps(s, st, c);
    assert Get(tr[i].clusters, c) == Some(tr[i].clusters[c]);
    if c in s.clusters && s.clusters[c].spec.backup == tr[i].clusters[c].spec.backup {
      SchedulesAskedFor(tr, steps, c, i - 1, x);
    } else {
      BuiltBackup(c, s.instances[c], st.w);
      var os := tr[i].clusters[c].spec.backup.value.schedules;
      var k :| 0 <= k < |os| && os[k] == x;
      var p := Enabled(s.instances[c].backup.value.storages)[k];
      assert Translates(p, x);
      assert p in Enabled(s.instances[c].backup.value.storages);
    }
  }
}
