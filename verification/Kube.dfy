/** Object metadata as the API server keeps it, and the few library operations
    on it that the provider relies on: finalizers, controller references and
    the server's rules for updating and deleting an object. */
module Kube {

  datatype Option<+T> = None | Some(value: T)

  datatype Kind = BackupKind | RestoreKind | OpBackupKind | OtherKind(name: string)

  datatype OwnerRef = OwnerRef(kind: Kind, name: string, uid: nat, controller: bool)

  datatype Meta = Meta(uid: nat, labels: map<string, string>, finalizers: seq<string>,
                       owners: seq<OwnerRef>, deleting: bool)

  /** The finalizer that makes the operator purge the backup data. */
  const DELETE_BACKUP := "percona.com/delete-backup"

  // ---------------------------------------------------------------- finalizers

  function AddFinalizer(fs: seq<string>, f: string): (r: seq<string>)
    ensures f in r && (forall g :: g in fs ==> g in r)
    ensures forall g :: g in r && g != f ==> g in fs
  {
    if f in fs then fs else fs + [f]
  }

  function RemoveFinalizer(fs: seq<string>, f: string): (r: seq<string>)
    ensures f !in r && |r| <= |fs|
    ensures forall g :: g != f ==> (g in r <==> g in fs)
    ensures r == fs <==> f !in fs
    ensures f in fs ==> |r| < |fs|
  {
    if fs == [] then []
    else if fs[0] == f then RemoveFinalizer(fs[1..], f)
    else
      assert fs == [fs[0]] + fs[1..];
      [fs[0]] + RemoveFinalizer(fs[1..], f)
  }

  // ------------------------------------------------------ controller references

  predicate SameObject(a: OwnerRef, b: OwnerRef) {
    a.kind == b.kind && a.name == b.name
  }

  /** The first reference flagged as controller. */
  function ControllerOf(owners: seq<OwnerRef>): (r: Option<OwnerRef>)
    ensures r.Some? ==>
              exists i :: 0 <= i < |owners| && owners[i] == r.value && r.value.controller
                          && forall j :: 0 <= j < i ==> !owners[j].controller
    ensures r.None? ==> forall o :: o in owners ==> !o.controller
  {
    if owners == [] then None
    else if owners[0].controller then Some(owners[0])
    else ControllerOf(owners[1..])
  }

  /** Replaces the reference to the same object, or appends a new one. */
  function Upsert(owners: seq<OwnerRef>, ref: OwnerRef): (r: seq<OwnerRef>)
    ensures ref in r
    ensures forall o :: o in r && o != ref ==> o in owners
    ensures forall o :: o in owners && !SameObject(o, ref) ==> o in r
  {
    if owners == [] then [ref]
    else if SameObject(owners[0], ref) then [ref] + owners[1..]
    else [owners[0]] + Upsert(owners[1..], ref)
  }

  /** Fails when another object already controls this one. */
  function SetControllerReference(owners: seq<OwnerRef>, ref: OwnerRef): (r: Option<seq<OwnerRef>>)
    ensures r.Some? ==> ref in r.value && forall o :: o in r.value && o != ref ==> o in owners
    ensures r.Some? ==> forall o :: o in owners && !SameObject(o, ref) ==> o in r.value
  {
    var existing := ControllerOf(owners);
    if existing.Some? && !SameObject(existing.value, ref) then None else Some(Upsert(owners, ref))
  }

  lemma {:induction false} UpsertTwice(owners: seq<OwnerRef>, ref: OwnerRef)
    ensures Upsert(Upsert(owners, ref), ref) == Upsert(owners, ref)
  {
    if owners != [] && !SameObject(owners[0], ref) {
      UpsertTwice(owners[1..], ref);
      var once := Upsert(owners, ref);
      assert once[0] == owners[0] && once[1..] == Upsert(owners[1..], ref);
    }
  }

  lemma {:induction false} UpsertController(owners: seq<OwnerRef>, ref: OwnerRef)
    requires ref.controller
    requires ControllerOf(owners).Some? ==> SameObject(ControllerOf(owners).value, ref)
    ensures ControllerOf(Upsert(owners, ref)).Some?
    ensures SameObject(ControllerOf(Upsert(owners, ref)).value, ref)
  {
    if owners != [] && !SameObject(owners[0], ref) {
      UpsertController(owners[1..], ref);
      var once := Upsert(owners, ref);
      assert once[0] == owners[0] && once[1..] == Upsert(owners[1..], ref);
    }
  }

  /** Setting the same controller reference again succeeds and changes nothing. */
  lemma SetControllerReferenceTwice(owners: seq<OwnerRef>, ref: OwnerRef)
    requires ref.controller && SetControllerReference(owners, ref).Some?
    ensures var once := SetControllerReference(owners, ref).value;
            SetControllerReference(once, ref) == Some(once)
  {
    UpsertTwice(owners, ref);
    UpsertController(owners, ref);
  }

  lemma SoleController(ref: OwnerRef)
    requires ref.controller
    ensures SetControllerReference([ref], ref) == Some([ref])
  {
    assert ControllerOf([ref]) == Some(ref);
    assert Upsert([ref], ref) == [ref];
  }

  // ------------------------------------------------------------- server rules

  /** What the server does with an update of finalizers and owner references:
      an object being deleted takes no new finalizer, and disappears with its
      last one. */
  datatype Write = Rejected | Removed | Stored(meta: Meta)

  function ServerWrite(m: Meta, finalizers: seq<string>, owners: seq<OwnerRef>): Write {
    if m.deleting && exists f :: f in finalizers && f !in m.finalizers then Rejected
    else if m.deleting && finalizers == [] then Removed
    else Stored(m.(finalizers := finalizers, owners := owners))
  }

  /** A delete request only marks an object that still has finalizers. */
  function ServerDelete(m: Meta): Write {
    if m.finalizers == [] then Removed else Stored(m.(deleting := true))
  }
}
