/** Overlapping SyncBackup (or SyncRestore) calls for one object, at the
    granularity of single API calls. Any number of calls run at once; every read
    may be answered from a stale cache, also with a NotFound that is no longer
    true, and every call may stop with an error anywhere. */
module Race {
  import opened Kube
  import P = Protocol
  import T = Translation

  /** What the calls do about the delete-backup finalizer; restores leave it alone. */
  datatype Policy = LeaveAlone | Retain | Purge

  /** The part of a call that stays the same while Backup or Restore do. */
  datatype Call = Call(owner: OwnerRef, policy: Policy, spec: seq<string>)

  datatype Object = Object(meta: Meta, spec: seq<string>)

  function WantedFinalizers(fs: seq<string>, policy: Policy): seq<string> {
    match policy
    case LeaveAlone => fs
    case Retain => RemoveFinalizer(fs, DELETE_BACKUP)
    case Purge => AddFinalizer(fs, DELETE_BACKUP)
  }

  /** What a call wants an object to look like; None if it is controlled by another.
      Its spec stays out of it. */
  function Wanted(o: Object, c: Call): Option<Object> {
    match SetControllerReference(o.meta.owners, c.owner)
    case None => None
    case Some(owners) =>
      Some(o.(meta := o.meta.(finalizers := WantedFinalizers(o.meta.finalizers, c.policy), owners := owners)))
  }

  function NewObject(c: Call, uid: nat): Object {
    Object(Meta(uid, map[], WantedFinalizers([], c.policy), [c.owner], false), c.spec)
  }

  /** A JSON merge patch (section 2 of RFC 7396): only fields that differ are sent,
      lists as a whole. */
  datatype MergePatch = MergePatch(finalizers: Option<seq<string>>, owners: Option<seq<OwnerRef>>,
                                   spec: Option<seq<string>>)

  function Diff(orig: Object, changed: Object): MergePatch {
    MergePatch(P.Sent(orig.meta.finalizers, changed.meta.finalizers), P.Sent(orig.meta.owners, changed.meta.owners),
               P.Sent(orig.spec, changed.spec))
  }

  function Merge(o: Object, p: MergePatch): Object {
    Object(o.meta.(finalizers := P.Kept(o.meta.finalizers, p.finalizers), owners := P.Kept(o.meta.owners, p.owners)),
           P.Kept(o.spec, p.spec))
  }

  /** How far one call has got, with its local copy of the object. */
  datatype Worker = Started | Missing | AlreadyThere | Holding(copy: Object) | Succeeded | Stopped

  datatype Event =
    | Read(i: nat, copy: Option<Object>)
    | Create(i: nat)
    | Write(i: nat)
    | Stop(i: nat)

  /** The store, every version of the object that ever existed, and the calls. */
  datatype Store = Store(stored: Option<Object>, versions: set<Object>, workers: seq<Worker>)

  function Next(s: Store, c: Call, uid: nat, e: Event): Store {
    if e.i >= |s.workers| then s
    else
      var w := s.workers[e.i];
      match e
      case Read(i, copy) =>
        if copy.Some? && copy.value !in s.versions then s
        else if w.Started? then s.(workers := s.workers[i := if copy.Some? then Holding(copy.value) else Missing])
        else if w.AlreadyThere? then s.(workers := s.workers[i := if copy.Some? then Holding(copy.value) else Stopped])
        else s
      case Create(i) =>
        if !w.Missing? then s
        else if s.stored.Some? then s.(workers := s.workers[i := AlreadyThere])
        else
          var o := NewObject(c, uid);
          Store(Some(o), s.versions + {o}, s.workers[i := Holding(o)])
      case Write(i) =>
        if !w.Holding? then s
        else if s.stored.None? || Wanted(w.copy, c).None? then s.(workers := s.workers[i := Stopped])
        else
          var o := Merge(s.stored.value, Diff(w.copy, Wanted(w.copy, c).value));
          Store(Some(o), s.versions + {o}, s.workers[i := Succeeded])
      case Stop(i) => if w.Succeeded? then s else s.(workers := s.workers[i := Stopped])
  }

  ghost predicate IsRun(tr: seq<Store>, events: seq<Event>, c: Call, uid: nat) {
    |tr| == |events| + 1 && forall i :: 0 <= i < |events| ==> tr[i + 1] == Next(tr[i], c, uid, events[i])
  }

  /** Nothing has happened yet; the object may or may not exist. */
  predicate Initial(s: Store) {
    && s.versions == (if s.stored.Some? then {s.stored.value} else {})
    && forall i :: 0 <= i < |s.workers| ==> s.workers[i].Started?
  }

  /** The object as one undisturbed call leaves it; None if that call must stop. */
  function Single(before: Option<Object>, c: Call, uid: nat): Option<Object> {
    match before
    case None => Some(NewObject(c, uid))
    case Some(o) => Wanted(o, c)
  }

  lemma WantedTwice(o: Object, c: Call)
    requires c.owner.controller && Wanted(o, c).Some?
    ensures Wanted(Wanted(o, c).value, c) == Wanted(o, c)
  {
    SetControllerReferenceTwice(o.meta.owners, c.owner);
  }

  lemma WantedNew(c: Call, uid: nat)
    requires c.owner.controller
    ensures Wanted(NewObject(c, uid), c) == Some(NewObject(c, uid))
  {
    SoleController(c.owner);
  }

  /** The patch never carries the spec, so whatever spec the server holds by then is
      what it keeps. */
  lemma PatchLeavesSpec(copy: Object, now: Object, c: Call)
    requires Wanted(copy, c).Some?
    ensures Diff(copy, Wanted(copy, c).value).spec.None?
    ensures Merge(now, Diff(copy, Wanted(copy, c).value)).spec == now.spec
  {
  }

  /** Other writers: a finalizer that somebody put there after the copy was read
      survives the patch if and only if the call had nothing to change about the
      finalizers it read; a list is replaced whole. */
  lemma OthersFinalizerSurvives(copy: Object, now: Object, c: Call, f: string)
    requires Wanted(copy, c).Some? && f in now.meta.finalizers && f !in copy.meta.finalizers && f != DELETE_BACKUP
    ensures f in Merge(now, Diff(copy, Wanted(copy, c).value)).meta.finalizers <==>
              match c.policy
              case LeaveAlone => true
              case Retain => DELETE_BACKUP !in copy.meta.finalizers
              case Purge => DELETE_BACKUP in copy.meta.finalizers
  {
  }

  /** Every version is the initial or the final one, the store holds one of them,
      and it holds the final one from the moment that exists. */
  predicate Safe(s: Store, before: Option<Object>, c: Call, uid: nat) {
    var single := Single(before, c, uid);
    && (s.stored == before || (single.Some? && s.stored == single))
    && (forall o :: o in s.versions ==> before == Some(o) || single == Some(o))
    && (single.Some? && single.value in s.versions ==> s.stored == single)
    && (forall i :: 0 <= i < |s.workers| && s.workers[i].Holding? ==> s.workers[i].copy in s.versions)
    && (forall i :: 0 <= i < |s.workers| && s.workers[i].Succeeded? ==> single.Some? && s.stored == single)
    && (s.stored.Some? ==> s.stored.value in s.versions)
  }

  /** From either version the patch leads to the final one. */
  lemma PatchFrom(o: Object, c: Call)
    requires Wanted(o, c).Some?
    ensures Merge(o, Diff(o, Wanted(o, c).value)) == Wanted(o, c).value
  {
  }

  /** A patch computed from either version leads to the final one or changes nothing. */
  lemma WriteSafe(s: Store, before: Option<Object>, c: Call, uid: nat, i: nat)
    requires c.owner.controller && Safe(s, before, c, uid) && i < |s.workers|
    ensures Safe(Next(s, c, uid, Write(i)), before, c, uid)
  {
    if before.Some? && Wanted(before.value, c).Some? {
      WantedTwice(before.value, c);
      PatchFrom(before.value, c);
      PatchFrom(Wanted(before.value, c).value, c);
    }
    WantedNew(c, uid);
    hide Wanted, NewObject;
  }

  lemma StepSafe(s: Store, before: Option<Object>, c: Call, uid: nat, e: Event)
    requires c.owner.controller && Safe(s, before, c, uid)
    ensures Safe(Next(s, c, uid, e), before, c, uid)
  {
    if e.Write? && e.i < |s.workers| {
      WriteSafe(s, before, c, uid, e.i);
    } else {
      hide Wanted, NewObject;
    }
  }

  /** Race safety: in every interleaving of any number of calls the object is at
      all times as it was before or as one single call leaves it, and it is the
      latter as soon as one of the calls has succeeded. Calls that stop have
      spoiled nothing. */
  lemma {:induction false} RaceSafety(tr: seq<Store>, events: seq<Event>, c: Call, uid: nat, i: nat)
    requires c.owner.controller && IsRun(tr, events, c, uid) && i <= |events| && Initial(tr[0])
    ensures Safe(tr[i], tr[0].stored, c, uid)
    ensures tr[i].stored == tr[0].stored || tr[i].stored == Single(tr[0].stored, c, uid)
    ensures (exists w :: 0 <= w < |tr[i].workers| && tr[i].workers[w].Succeeded?) ==>
              tr[i].stored.Some? && tr[i].stored == Single(tr[0].stored, c, uid)
  {
    if i > 0 {
      RaceSafety(tr, events, c, uid, i - 1);
      StepSafe(tr[i - 1], tr[0].stored, c, uid, events[i - 1]);
      hide Next, Wanted, NewObject;
    } else {
      hide Wanted, NewObject;
    }
  }

  // ------------------------------------------- the atomic calls as the reference

  function BackupCall(n: string, b: P.Backup, btype: string): Call {
    Call(P.BackupOwner(n, b), if b.retain then Retain else Purge, [btype, b.instance, b.storage])
  }

  function RestoreCall(n: string, r: P.Restore): Call
    requires r.source.FromBackup?
  {
    Call(P.RestoreOwner(n, r), LeaveAlone, [r.instance, r.source.name])
  }

  function BackupObject(op: P.OpBackup): Object { Object(op.meta, [op.btype, op.cluster, op.storage]) }

  function RestoreObject(op: P.OpRestore): Object { Object(op.meta, [op.cluster, op.backup]) }

  function Optional<A, B>(a: Option<A>, f: A -> B): Option<B> {
    match a case Some(v) => Some(f(v)) case None => None
  }

  /** One undisturbed call of the race is the atomic SyncBackup of the protocol. */
  lemma SingleIsSyncBackup(s: P.State, n: string, k: nat, btype: string)
    requires n in s.backups && s.backups[n].schedule == "" && k >= 6
    requires T.ResolveBackupType(s.backups[n].parameters) == Some(btype)
    requires if n in s.opBackups then !s.opBackups[n].meta.deleting else P.StorageRegistered(s, s.backups[n])
    ensures var call := BackupCall(n, s.backups[n], btype);
            var single := Single(Optional(P.Get(s.opBackups, n), BackupObject), call, s.nextUid);
            var after := P.Get(P.SyncBackup(s, n, k).s.opBackups, n);
            if single.Some? then Optional(after, BackupObject) == single else P.SyncBackup(s, n, k).out == P.Failure
  {
    var b := s.backups[n];
    if P.Labelled(b.meta, b.instance) {
      SingleIsSyncLabelled(s, n, k, btype);
    } else {
      SingleIsSyncLabelled(s.(backups := s.backups[n := b.(meta := P.Relabel(b.meta, b.instance))]), n, k - 2, btype);
    }
    hide P.SyncLabelled, SetControllerReference, Wanted;
  }

  lemma SingleIsSyncLabelled(s: P.State, n: string, k: nat, btype: string)
    requires n in s.backups && s.backups[n].schedule == "" && k >= 4
    requires T.ResolveBackupType(s.backups[n].parameters) == Some(btype)
    requires if n in s.opBackups then !s.opBackups[n].meta.deleting else P.StorageRegistered(s, s.backups[n])
    ensures var call := BackupCall(n, s.backups[n], btype);
            var single := Single(Optional(P.Get(s.opBackups, n), BackupObject), call, s.nextUid);
            var r := P.SyncLabelled(s, n, k);
            if single.Some? then Optional(P.Get(r.s.opBackups, n), BackupObject) == single else r.out == P.Failure
  {
    var b := s.backups[n];
    if n in s.opBackups {
      assert P.SyncLabelled(s, n, k) == P.AdoptOpBackup(s, n, k - 1);
    } else {
      P.AdoptedNew(n, b, btype, s.nextUid);
      NewBackupObject(n, b, btype, s.nextUid);
    }
    hide P.SyncLabelled, P.StorageRegistered, SetControllerReference;
  }

  lemma NewBackupObject(n: string, b: P.Backup, btype: string, uid: nat)
    ensures NewObject(BackupCall(n, b, btype), uid) == BackupObject(P.NewOpBackup(n, b, btype, uid))
  {
  }

  /** And likewise for SyncRestore. */
  lemma SingleIsSyncRestore(s: P.State, n: string, k: nat)
    requires n in s.restores && k >= 6 && s.restores[n].source.FromBackup? && P.ResolveSource(s, s.restores[n]).None?
    requires n in s.opRestores ==> !s.opRestores[n].meta.deleting
    ensures var call := RestoreCall(n, s.restores[n]);
            var single := Single(Optional(P.Get(s.opRestores, n), RestoreObject), call, s.nextUid);
            var after := P.Get(P.SyncRestore(s, n, k).s.opRestores, n);
            if single.Some? then Optional(after, RestoreObject) == single else P.SyncRestore(s, n, k).out == P.Failure
  {
    var r := s.restores[n];
    SoleController(P.RestoreOwner(n, r));
    var s1 := if P.Labelled(r.meta, r.instance) then s
              else s.(restores := s.restores[n := r.(meta := P.Relabel(r.meta, r.instance))]);
    var k1 := if P.Labelled(r.meta, r.instance) then k else k - 2;
    assert P.SyncRestore(s, n, k) == P.RestoreLabelled(s1, n, k1);
    assert P.ResolveSource(s1, s1.restores[n]).None?;
    if n in s.opRestores {
      assert P.RestoreLabelled(s1, n, k1) == P.AdoptOpRestore(s1, n, k1 - 2);
    }
    hide P.SyncRestore, P.ResolveSource, SetControllerReference;
  }
}
