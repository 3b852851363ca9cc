/** The provider's calls as they run: one API request after another against the
    server, each of which may fail. Every call is proved to do exactly what its
    function in module Protocol says, for every point of failure. */
module Provider {
  import opened Kube
  import opened Instances
  import P = Protocol
  import T = Translation
  import Builder
  import C = StaleCleanup
  import M = Monitoring

  datatype Reply<+V> = Found(value: V) | NotFound | CallFailed
  datatype CreateReply<+V> = Created(value: V) | AlreadyExists | CreateFailed

  /** One call fewer before the next failure. */
  function Less(k: nat): nat { if k == 0 then 0 else k - 1 }

  class ApiServer {
    var instances: map<string, Instance>
    var clusters: map<string, P.Cluster>
    var backups: map<string, P.Backup>
    var restores: map<string, P.Restore>
    var opBackups: map<string, P.OpBackup>
    var opRestores: map<string, P.OpRestore>
    var purged: set<nat>
    var nextUid: nat
    var calls: nat  // how many calls succeed before one fails

    // What the cache answers. Reading one of the operator's objects gives it time to
    // catch up before the next read.
    var cachedClusters: map<string, P.Cluster>
    var cachedBackups: map<string, P.OpBackup>
    var cachedRestores: map<string, P.OpRestore>

    predicate Current()
      reads this
    {
      cachedClusters == clusters && cachedBackups == opBackups && cachedRestores == opRestores
    }

    /** The cache is behind, but only in that it has yet to see the operator backup. */
    predicate BackupUnseen(n: string)
      reads this
    {
      cachedClusters == clusters && n !in cachedBackups
    }

    function View(n: string): C.View
      reads this
    {
      C.View(P.Get(cachedClusters, n), P.Get(cachedBackups, n), P.Get(cachedRestores, n))
    }

    function Store(): P.State
      reads this
    {
      P.State(instances, clusters, backups, restores, opBackups, opRestores, purged, nextUid)
    }

    method Spend() returns (ok: bool)
      modifies this`calls
      ensures ok <==> old(calls) > 0
      ensures calls == Less(old(calls))
    {
      ok := calls > 0;
      calls := Less(calls);
    }

    method LabelBackup(n: string, instance: string) returns (ok: bool)
      requires n in backups
      modifies this`calls, this`backups
      ensures calls == Less(old(calls)) && (ok <==> old(calls) > 0)
      ensures var was := old(backups)[n];
              backups == if ok then old(backups)[n := was.(meta := P.Relabel(was.meta, instance))] else old(backups)
    {
      ok := Spend();
      if ok { backups := backups[n := backups[n].(meta := P.Relabel(backups[n].meta, instance))]; }
    }

    method LabelRestore(n: string, instance: string) returns (ok: bool)
      requires n in restores
      modifies this`calls, this`restores
      ensures calls == Less(old(calls)) && (ok <==> old(calls) > 0)
      ensures var was := old(restores)[n];
              restores == if ok then old(restores)[n := was.(meta := P.Relabel(was.meta, instance))] else old(restores)
    {
      ok := Spend();
      if ok { restores := restores[n := restores[n].(meta := P.Relabel(restores[n].meta, instance))]; }
    }

    method GetBackup(n: string) returns (r: Reply<P.Backup>)
      modifies this`calls
      ensures calls == Less(old(calls))
      ensures r == if old(calls) == 0 then CallFailed else if n in backups then Found(backups[n]) else NotFound
    {
      var ok := Spend();
      r := if !ok then CallFailed else if n in backups then Found(backups[n]) else NotFound;
    }

    method GetRestore(n: string) returns (r: Reply<P.Restore>)
      modifies this`calls
      ensures calls == Less(old(calls))
      ensures r == if old(calls) == 0 then CallFailed else if n in restores then Found(restores[n]) else NotFound
    {
      var ok := Spend();
      r := if !ok then CallFailed else if n in restores then Found(restores[n]) else NotFound;
    }

    method GetCluster(n: string) returns (r: Reply<P.Cluster>)
      modifies this`calls
      ensures calls == Less(old(calls))
      ensures r == if old(calls) == 0 then CallFailed
                   else if n in cachedClusters then Found(cachedClusters[n]) else NotFound
    {
      var ok := Spend();
      r := if !ok then CallFailed else if n in cachedClusters then Found(cachedClusters[n]) else NotFound;
    }

    method GetOpBackup(n: string) returns (r: Reply<P.OpBackup>)
      modifies this`calls, this`cachedBackups
      ensures calls == Less(old(calls)) && (!r.CallFailed? ==> cachedBackups == opBackups)
      ensures r == if old(calls) == 0 then CallFailed
                   else if n in old(cachedBackups) then Found(old(cachedBackups)[n]) else NotFound
    {
      var ok := Spend();
      if !ok { return CallFailed; }
      r := if n in cachedBackups then Found(cachedBackups[n]) else NotFound;
      cachedBackups := opBackups;
    }

    method GetOpRestore(n: string) returns (r: Reply<P.OpRestore>)
      modifies this`calls, this`cachedRestores
      ensures calls == Less(old(calls)) && (!r.CallFailed? ==> cachedRestores == opRestores)
      ensures r == if old(calls) == 0 then CallFailed
                   else if n in old(cachedRestores) then Found(old(cachedRestores)[n]) else NotFound
    {
      var ok := Spend();
      if !ok { return CallFailed; }
      r := if n in cachedRestores then Found(cachedRestores[n]) else NotFound;
      cachedRestores := opRestores;
    }

    /** The server gives a new object its identity. */
    method CreateOpBackup(n: string, op: P.OpBackup) returns (r: CreateReply<P.OpBackup>)
      modifies this`calls, this`opBackups, this`nextUid
      ensures calls == Less(old(calls))
      ensures var stored := op.(meta := op.meta.(uid := old(nextUid)));
              if old(calls) > 0 && n !in old(opBackups)
              then r == Created(stored) && opBackups == old(opBackups)[n := stored] && nextUid == old(nextUid) + 1
              else r == (if old(calls) == 0 then CreateFailed else AlreadyExists)
                   && opBackups == old(opBackups) && nextUid == old(nextUid)
    {
      var ok := Spend();
      if !ok { return CreateFailed; }
      if n in opBackups { return AlreadyExists; }
      var stored := op.(meta := op.meta.(uid := nextUid));
      opBackups, nextUid := opBackups[n := stored], nextUid + 1;
      r := Created(stored);
    }

    method CreateOpRestore(n: string, op: P.OpRestore) returns (r: CreateReply<P.OpRestore>)
      modifies this`calls, this`opRestores, this`nextUid
      ensures calls == Less(old(calls))
      ensures var stored := op.(meta := op.meta.(uid := old(nextUid)));
              if old(calls) > 0 && n !in old(opRestores)
              then r == Created(stored) && opRestores == old(opRestores)[n := stored] && nextUid == old(nextUid) + 1
              else r == (if old(calls) == 0 then CreateFailed else AlreadyExists)
                   && opRestores == old(opRestores) && nextUid == old(nextUid)
    {
      var ok := Spend();
      if !ok { return CreateFailed; }
      if n in opRestores { return AlreadyExists; }
      var stored := op.(meta := op.meta.(uid := nextUid));
      opRestores, nextUid := opRestores[n := stored], nextUid + 1;
      r := Created(stored);
    }

    /** Applies a merge patch to what the server holds by now, and answers with it. */
    method PatchOpBackup(n: string, patch: P.OpBackupPatch) returns (answer: Option<P.OpBackup>)
      modifies this`calls, this`opBackups
      ensures calls == Less(old(calls))
      ensures var patched := P.PatchOpBackup(old(Store()), n, patch);
              && (answer.Some? <==> old(calls) > 0 && patched.Some?)
              && (answer.Some? ==> answer.value == P.Merged(old(opBackups)[n], patch))
              && Store() == if answer.Some? then patched.value else old(Store())
    {
      var spent := Spend();
      if !spent || n !in opBackups { return None; }
      var merged := P.Merged(opBackups[n], patch);
      match ServerWrite(opBackups[n].meta, merged.meta.finalizers, merged.meta.owners) {
        case Rejected => answer := None;
        case Removed =>
          opBackups := opBackups - {n};
          answer := Some(merged);
        case Stored(m) =>
          opBackups := opBackups[n := merged.(meta := m)];
          answer := Some(merged);
      }
    }

    /** Replaces an object, unless it is not the version that was read any more. */
    method UpdateOpBackup(n: string, read: P.OpBackup, finalizers: seq<string>) returns (ok: bool)
      modifies this`calls, this`opBackups
      ensures calls == Less(old(calls))
      ensures ok <==> old(calls) > 0 && P.Get(old(opBackups), n) == Some(read)
                      && !ServerWrite(read.meta, finalizers, read.meta.owners).Rejected?
      ensures var w := ServerWrite(read.meta, finalizers, read.meta.owners);
              Store() == if ok then P.WriteOpBackup(old(Store()), n, w) else old(Store())
    {
      var spent := Spend();
      if !spent || n !in opBackups || opBackups[n] != read { return false; }
      match ServerWrite(read.meta, finalizers, read.meta.owners) {
        case Rejected => ok := false;
        case Removed =>
          opBackups := opBackups - {n};
          ok := true;
        case Stored(m) =>
          opBackups := opBackups[n := opBackups[n].(meta := m)];
          ok := true;
      }
    }

    /** A patch of an operator restore carries owner references, if they differ. The
        server answers with the object, whose status it leaves alone. */
    method PatchOpRestore(n: string, owners: Option<seq<OwnerRef>>) returns (answer: Option<P.OpRestore>)
      modifies this`calls, this`opRestores
      ensures calls == Less(old(calls))
      ensures answer == if old(calls) > 0 then P.Get(old(opRestores), n) else None
      ensures Store() == if answer.None? then old(Store()) else
                           var m := old(opRestores)[n].meta;
                           P.WriteOpRestore(old(Store()), n, ServerWrite(m, m.finalizers, P.Kept(m.owners, owners)))
    {
      var spent := Spend();
      if !spent || n !in opRestores { return None; }
      answer := Some(opRestores[n]);
      var m := opRestores[n].meta;
      match ServerWrite(m, m.finalizers, P.Kept(m.owners, owners)) {
        case Rejected =>
        case Removed => opRestores := opRestores - {n};
        case Stored(kept) => opRestores := opRestores[n := opRestores[n].(meta := kept)];
      }
    }

    method DeleteOpBackup(n: string) returns (r: Reply<()>)
      modifies this`calls, this`opBackups
      ensures calls == Less(old(calls))
      ensures if old(calls) == 0 then r == CallFailed && Store() == old(Store())
              else if n in old(opBackups)
              then r == Found(()) && Store() == P.WriteOpBackup(old(Store()), n, ServerDelete(old(opBackups)[n].meta))
              else r == NotFound && Store() == old(Store())
    {
      var ok := Spend();
      if !ok { return CallFailed; }
      if n !in opBackups { return NotFound; }
      if opBackups[n].meta.finalizers == [] {
        opBackups := opBackups - {n};
      } else {
        opBackups := opBackups[n := opBackups[n].(meta := opBackups[n].meta.(deleting := true))];
      }
      r := Found(());
    }

    method DeleteOpRestore(n: string) returns (r: Reply<()>)
      modifies this`calls, this`opRestores
      ensures calls == Less(old(calls))
      ensures if old(calls) == 0 then r == CallFailed && Store() == old(Store())
              else if n in old(opRestores)
              then r == Found(()) && Store() == P.WriteOpRestore(old(Store()), n, ServerDelete(old(opRestores)[n].meta))
              else r == NotFound && Store() == old(Store())
    {
      var ok := Spend();
      if !ok { return CallFailed; }
      if n !in opRestores { return NotFound; }
      if opRestores[n].meta.finalizers == [] {
        opRestores := opRestores - {n};
      } else {
        opRestores := opRestores[n := opRestores[n].(meta := opRestores[n].meta.(deleting := true))];
      }
      r := Found(());
    }

    method DeleteCluster(n: string) returns (r: Reply<()>)
      modifies this`calls, this`clusters
      ensures calls == Less(old(calls))
      ensures if old(calls) == 0 then r == CallFailed && Store() == old(Store())
              else if n in old(clusters)
              then r == Found(()) && Store() == P.WriteCluster(old(Store()), n, ServerDelete(old(clusters)[n].meta))
              else r == NotFound && Store() == old(Store())
    {
      var ok := Spend();
      if !ok { return CallFailed; }
      if n !in clusters { return NotFound; }
      if clusters[n].meta.finalizers == [] {
        clusters := clusters - {n};
      } else {
        clusters := clusters[n := clusters[n].(meta := clusters[n].meta.(deleting := true))];
      }
      r := Found(());
    }

    method Apply(n: string, spec: ClusterSpec)
      modifies this`clusters, this`nextUid
      ensures Store() == P.Apply(old(Store()), n, spec)
    {
      if n in clusters {
        clusters := clusters[n := clusters[n].(spec := spec)];
      } else {
        clusters, nextUid := clusters[n := P.Cluster(P.NewMeta(nextUid, [], []), spec)], nextUid + 1;
      }
    }
  }

  // --------------------------------------------------------------- SyncBackup
  //
  // With an up-to-date cache a call does what the protocol says. With one that has yet
  // to see the operator's object it changes that object as an undisturbed call would,
  // or not at all.

  method SyncBackup(api: ApiServer, n: string) returns (out: P.Outcome)
    requires n in api.backups
    modifies api
    ensures old(api.Current()) ==> P.Synced(api.Store(), out) == P.SyncBackup(old(api.Store()), n, old(api.calls))
    ensures old(api.Current() || api.BackupUnseen(n)) ==>
              || api.opBackups == old(api.opBackups)
              || api.opBackups == P.SyncBackup(old(api.Store()), n, 6).s.opBackups
  {
    var backup := api.backups[n];
    if !P.Labelled(backup.meta, backup.instance) {
      var ok := api.LabelBackup(n, backup.instance);
      if !ok { return P.Failure; }
      var again := api.GetBackup(n);
      if !again.Found? { return P.Failure; }
      backup := again.value;
    }
    ghost var s := api.Store();
    out := SyncLabelled(api, n, backup);
    FourCallsSuffice(s, n);
    hide P.SyncLabelled, P.OpBackupCase, P.OnlyAt, P.BackupConflict, P.BackupRelabelled;
  }

  lemma FourCallsSuffice(s: P.State, n: string)
    requires n in s.backups
    ensures P.SyncLabelled(s, n, 6) == P.SyncLabelled(s, n, 4)
  {
  }

  /** A call that stops early has done a part of what the whole call does. */
  lemma PartOfSyncBackup(s: P.State, n: string, k: nat)
    requires n in s.backups
    ensures var ops := P.SyncLabelled(s, n, k).s.opBackups;
            ops == s.opBackups || ops == P.SyncLabelled(s, n, 4).s.opBackups
    ensures n in s.opBackups ==>
              var ops := P.AdoptOpBackup(s, n, k).s.opBackups;
              ops == s.opBackups || ops == P.SyncLabelled(s, n, 4).s.opBackups
  {
    if n !in s.opBackups && T.ResolveBackupType(s.backups[n].parameters).Some? {
      P.AdoptedNew(n, s.backups[n], T.ResolveBackupType(s.backups[n].parameters).value, s.nextUid);
      hide P.Adopted;
    }
  }

  method SyncLabelled(api: ApiServer, n: string, backup: P.Backup) returns (out: P.Outcome)
    requires n in api.backups && backup == api.backups[n]
    modifies api
    ensures old(api.Current()) ==> P.Synced(api.Store(), out) == P.SyncLabelled(old(api.Store()), n, old(api.calls))
    ensures old(api.Current() || api.BackupUnseen(n)) ==>
              || api.opBackups == old(api.opBackups)
              || api.opBackups == P.SyncLabelled(old(api.Store()), n, 4).s.opBackups
  {
    hide P.OpBackupCase, P.AdoptOpBackup, P.ReportOf, T.ResolveBackupType, P.WriteOpBackup, P.OnlyAt, P.SyncBackup;
    ghost var s, k := api.Store(), api.calls;
    PartOfSyncBackup(s, n, k);
    var got := api.GetOpBackup(n);
    var opBackup: P.OpBackup;
    match got {
      case CallFailed => return P.Failure;
      case Found(op) => opBackup := op;
      case NotFound =>
        var stop;
        stop, opBackup := CreateMissing(api, n, backup);
        if stop.Some? { return stop.value; }
        PartOfSyncBackup(s, n, api.calls);
    }
    hide P.SyncLabelled;
    if n in api.opBackups { P.AdoptCurrent(api.Store(), n, api.calls); }
    hide P.AdoptSeeing;
    out := AdoptOpBackup(api, n, backup, opBackup);
  }

  /** The operator backup was not found: create it, unless there is something to
      wait for or the parameters are refused. stop ends the call. */
  method CreateMissing(api: ApiServer, n: string, backup: P.Backup)
    returns (stop: Option<P.Outcome>, opBackup: P.OpBackup)
    requires n in api.backups && backup == api.backups[n] && api.cachedBackups == api.opBackups
    modifies api
    ensures stop.None? ==> n in api.opBackups && opBackup == api.opBackups[n] && api.backups == old(api.backups)
    ensures n in old(api.opBackups) ==> api.Store() == old(api.Store())
    ensures n !in old(api.opBackups) && old(api.cachedClusters == api.clusters) ==>
              P.SyncLabelled(old(api.Store()), n, old(api.calls) + 1)
              == if stop.Some? then P.Synced(api.Store(), stop.value) else P.AdoptOpBackup(api.Store(), n, api.calls)
  {
    hide P.OpBackupCase, P.AdoptOpBackup, P.ReportOf, T.ResolveBackupType, P.OnlyAt, P.SyncBackup;
    opBackup := P.NewOpBackup(n, backup, "", 0);
    if backup.schedule != "" { return Some(P.WAITING), opBackup; }
    var cluster := api.GetCluster(backup.instance);
    match cluster {
      case CallFailed => return Some(P.Failure), opBackup;
      case NotFound => return Some(P.WAITING), opBackup;
      case Found(c) =>
        if c.spec.backup.None? || backup.storage !in c.spec.backup.value.storages { return Some(P.WAITING), opBackup; }
    }
    var btype := T.ResolveBackupType(backup.parameters);
    if btype.None? { return Some(P.REFUSED), opBackup; }
    var created := api.CreateOpBackup(n, P.NewOpBackup(n, backup, btype.value, 0));
    match created {
      case CreateFailed => return Some(P.Failure), opBackup;
      case Created(op) => return None, op;
      case AlreadyExists =>
        var existing := api.GetOpBackup(n);
        if !existing.Found? { return Some(P.Failure), opBackup; }
        return None, existing.value;
    }
  }

  /** The final part: policy, controller reference, patch, and the report. The copy
      may be out of date. */
  method AdoptOpBackup(api: ApiServer, n: string, backup: P.Backup, opBackup: P.OpBackup) returns (out: P.Outcome)
    requires n in api.backups && backup == api.backups[n]
    modifies api`calls, api`opBackups
    ensures P.Synced(api.Store(), out) == P.AdoptSeeing(old(api.Store()), n, opBackup, old(api.calls))
  {
    var status, completedAt := opBackup.status, opBackup.completedAt;
    if backup.schedule == "" {
      var changed := opBackup;
      changed := changed.(meta := changed.meta.(
        finalizers := if backup.retain then RemoveFinalizer(changed.meta.finalizers, DELETE_BACKUP)
                      else AddFinalizer(changed.meta.finalizers, DELETE_BACKUP)));
      var owners := SetControllerReference(changed.meta.owners, P.BackupOwner(n, backup));
      if owners.None? { return P.Failure; }
      changed := changed.(meta := changed.meta.(owners := owners.value));
      var answer := api.PatchOpBackup(n, P.PatchBetween(opBackup, changed));
      if answer.None? { return P.Failure; }
      status, completedAt := answer.value.status, answer.value.completedAt;
    }
    out := P.ReportOf(status, completedAt);
  }

  // -------------------------------------------------------------- SyncRestore

  method SyncRestore(api: ApiServer, n: string) returns (out: P.Outcome)
    requires n in api.restores
    modifies api
    ensures old(api.Current()) ==> P.Synced(api.Store(), out) == P.SyncRestore(old(api.Store()), n, old(api.calls))
    ensures old(api.Current()) || n !in old(api.cachedRestores) ==>
              || api.opRestores == old(api.opRestores)
              || api.opRestores == P.SyncRestore(old(api.Store()), n, 6).s.opRestores
  {
    var restore := api.restores[n];
    if !P.Labelled(restore.meta, restore.instance) {
      var ok := api.LabelRestore(n, restore.instance);
      if !ok { return P.Failure; }
      var again := api.GetRestore(n);
      if !again.Found? { return P.Failure; }
      restore := again.value;
    }
    ghost var s := api.Store();
    out := RestoreLabelled(api, n, restore);
    FourRestoreCallsSuffice(s, n);
    hide P.RestoreLabelled, P.OpRestoreCase, P.OnlyAt, P.RestoreConflict, P.RestoreRelabelled;
  }

  lemma FourRestoreCallsSuffice(s: P.State, n: string)
    requires n in s.restores
    ensures P.RestoreLabelled(s, n, 6) == P.RestoreLabelled(s, n, 4)
  {
  }

  /** The name of the source Backup, or the report that ends the call. */
  method ResolveRestoreSource(api: ApiServer, restore: P.Restore) returns (name: string, stop: Option<P.Outcome>)
    modifies api`calls
    ensures var named := restore.source.FromBackup? && restore.source.name != "";
            && api.calls == (if named then Less(old(api.calls)) else old(api.calls))
            && stop == (if named && old(api.calls) == 0 then Some(P.Failure) else P.ResolveSource(api.Store(), restore))
            && (stop.None? ==> name == restore.source.name)
  {
    name := "";
    if restore.source.OtherSource? { return name, Some(P.REFUSED); }
    if restore.source.name == "" { return name, Some(P.REFUSED); }
    var source := api.GetBackup(restore.source.name);
    match source {
      case CallFailed => return name, Some(P.Failure);
      case NotFound => return name, Some(P.WAITING);
      case Found(b) =>
        if b.state == P.Failed { return name, Some(P.REFUSED); }
        if b.instance != restore.instance { return name, Some(P.REFUSED); }
        return restore.source.name, None;
    }
  }

  lemma PartOfSyncRestore(s: P.State, n: string, k: nat)
    requires n in s.restores
    ensures var ops := P.RestoreLabelled(s, n, k).s.opRestores;
            ops == s.opRestores || ops == P.RestoreLabelled(s, n, 4).s.opRestores
    ensures n in s.opRestores && P.ResolveSource(s, s.restores[n]).None? ==>
              var ops := P.AdoptOpRestore(s, n, k).s.opRestores;
              ops == s.opRestores || ops == P.RestoreLabelled(s, n, 4).s.opRestores
  {
  }

  method RestoreLabelled(api: ApiServer, n: string, restore: P.Restore) returns (out: P.Outcome)
    requires n in api.restores && restore == api.restores[n]
    modifies api
    ensures old(api.Current()) ==>
              P.Synced(api.Store(), out) == P.RestoreLabelled(old(api.Store()), n, old(api.calls))
    ensures old(api.Current()) || n !in old(api.cachedRestores) ==>
              || api.opRestores == old(api.opRestores)
              || api.opRestores == P.RestoreLabelled(old(api.Store()), n, 4).s.opRestores
  {
    hide P.OpRestoreCase, P.AdoptOpRestore, P.AdoptRestoreSeeing, P.ReportOf, P.OnlyAt, P.SyncRestore;
    ghost var s, k := api.Store(), api.calls;
    PartOfSyncRestore(s, n, k);
    var source, stop := ResolveRestoreSource(api, restore);
    if stop.Some? { return stop.value; }
    var opRestore: P.OpRestore;
    var got := api.GetOpRestore(n);
    match got {
      case CallFailed => return P.Failure;
      case Found(op) => opRestore := op;
      case NotFound =>
        var copy := CreateMissingRestore(api, n, restore, source);
        if copy.None? { return P.Failure; }
        opRestore := copy.value;
        PartOfSyncRestore(s, n, api.calls);
    }
    hide P.RestoreLabelled;
    if n in api.opRestores { P.AdoptCurrentRestore(api.Store(), n, api.calls); }
    out := AdoptOpRestore(api, n, restore, opRestore);
  }

  /** The operator restore was not found: create it, or read it again. */
  method CreateMissingRestore(api: ApiServer, n: string, restore: P.Restore, source: string)
    returns (copy: Option<P.OpRestore>)
    requires n in api.restores && restore == api.restores[n] && api.cachedRestores == api.opRestores
    requires P.ResolveSource(api.Store(), restore).None? && source == restore.source.name
    modifies api`calls, api`opRestores, api`nextUid, api`cachedRestores
    ensures copy.Some? ==> P.Get(api.opRestores, n) == copy
    ensures if n in old(api.opRestores) || old(api.calls) == 0
            then api.Store() == old(api.Store())
            else api.Store() == old(api.Store()).(nextUid := old(api.nextUid) + 1,
                   opRestores := old(api.opRestores)[n := P.NewOpRestore(n, restore, old(api.nextUid))])
    ensures n !in old(api.opRestores) ==> api.calls == Less(old(api.calls)) && (copy.Some? <==> old(api.calls) > 0)
  {
    var wanted := P.OpRestore(P.NewMeta(0, [], [P.RestoreOwner(n, restore)]), restore.instance, source, P.OpNew, None);
    var created := api.CreateOpRestore(n, wanted);
    match created {
      case CreateFailed => return None;
      case Created(op) => return Some(op);
      case AlreadyExists =>
        var existing := api.GetOpRestore(n);
        copy := if existing.Found? then Some(existing.value) else None;
    }
  }

  /** The final part. The copy may be out of date. */
  method AdoptOpRestore(api: ApiServer, n: string, restore: P.Restore, opRestore: P.OpRestore) returns (out: P.Outcome)
    requires n in api.restores && restore == api.restores[n]
    modifies api`calls, api`opRestores
    ensures P.Synced(api.Store(), out) == P.AdoptRestoreSeeing(old(api.Store()), n, opRestore, old(api.calls))
  {
    var owners := SetControllerReference(opRestore.meta.owners, P.RestoreOwner(n, restore));
    if owners.None? { return P.Failure; }
    var answer := api.PatchOpRestore(n, P.Sent(opRestore.meta.owners, owners.value));
    if answer.None? { return P.Failure; }
    out := P.ReportOf(answer.value.status, answer.value.completedAt);
  }

  // ------------------------------------------------------------------ cleanup

  method CleanupBackup(api: ApiServer, n: string) returns (out: Option<bool>)
    requires n in api.backups
    modifies api
    ensures P.Cleaned(api.Store(), out)
         == C.BackupSeeing(old(api.Store()), n, old(api.View(n).backup), old(api.calls))
  {
    var got := api.GetOpBackup(n);
    match got {
      case CallFailed => return None;
      case NotFound => return Some(true);
      case Found(op) =>
        if api.backups[n].retain && DELETE_BACKUP in op.meta.finalizers {
          var ok := api.UpdateOpBackup(n, op, RemoveFinalizer(op.meta.finalizers, DELETE_BACKUP));
          if !ok { return None; }
        }
        if !op.meta.deleting {
          var deleted := api.DeleteOpBackup(n);
          if deleted.CallFailed? { return None; }
        }
        return Some(false);
    }
  }

  method CleanupRestore(api: ApiServer, n: string) returns (out: Option<bool>)
    modifies api
    ensures P.Cleaned(api.Store(), out)
         == C.RestoreSeeing(old(api.Store()), n, old(api.View(n).restore), old(api.calls))
  {
    var got := api.GetOpRestore(n);
    match got {
      case CallFailed => return None;
      case NotFound => return Some(true);
      case Found(op) =>
        if !op.meta.deleting {
          var deleted := api.DeleteOpRestore(n);
          if deleted.CallFailed? { return None; }
        }
        return Some(false);
    }
  }

  /** Cleanup of an Instance; waiting is Some(false). */
  method Cleanup(api: ApiServer, n: string) returns (out: Option<bool>)
    modifies api
    ensures P.Cleaned(api.Store(), out)
         == C.InstanceSeeing(old(api.Store()), n, old(api.View(n).cluster), old(api.calls))
  {
    var got := api.GetCluster(n);
    match got {
      case CallFailed => return None;
      case NotFound => return Some(true);
      case Found(c) =>
        if c.meta.deleting { return Some(false); }
        var deleted := api.DeleteCluster(n);
        match deleted {
          case CallFailed => return None;
          case NotFound => return Some(true);
          case Found(_) => return Some(false);
        }
    }
  }

  // --------------------------------------------------------------------- Sync

  /** hasActiveRestoreForInstance: walks the listed Restores in any order. */
  method HasActiveRestore(api: ApiServer, instance: string) returns (active: bool)
    ensures active <==> P.ActiveRestore(api.Store(), instance)
  {
    var left := api.restores.Keys;
    while left != {}
      invariant left <= api.restores.Keys
      invariant forall r :: r in api.restores && r !in left ==> !P.Active(api.restores[r], instance)
      decreases |left|
    {
      var r :| r in left;
      left := left - {r};
      var restore := api.restores[r];
      if restore.instance == instance && !restore.meta.deleting
         && restore.state != P.Succeeded && restore.state != P.Failed {
        assert P.Active(restore, instance);
        return true;
      }
    }
    active := false;
  }

  /** Every failing call leaves the cluster as it was. */
  method Sync(api: ApiServer, n: string, w: World, secrets: M.Secrets)
    requires n in api.instances && Builder.Decoded(api.instances[n]) && w.secrets == secrets.data
    modifies api, secrets
    ensures api.Store() == P.Sync(old(api.Store()), n, w)
         || (api.Store() == old(api.Store()) && old(secrets.calls) < 5)
  {
    var active := HasActiveRestore(api, n);
    if active { return; }
    var built := Builder.BuildCluster(n, api.instances[n], w, secrets);
    if built.Ok? { api.Apply(n, built.value); }
  }

  /** Validate, then Sync, as the runtime calls them. */
  method Reconcile(api: ApiServer, n: string, w: World, secrets: M.Secrets)
    requires n in api.instances && Builder.Decoded(api.instances[n]) && w.secrets == secrets.data
    modifies api, secrets
    ensures api.Store() == P.Reconcile(old(api.Store()), n, w)
         || (api.Store() == old(api.Store()) && old(secrets.calls) < 5)
  {
    var refused := T.Validate(n, api.instances[n], P.CurrentSpec(api.Store(), n), w);
    if refused.None? { Sync(api, n, w, secrets); }
  }
}
