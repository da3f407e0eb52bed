/** Owner references: finding an object's controller, adding an owner, and
    making an object controlled by an owner unless someone else controls it. */
module Meta {
  import opened Types

  /** The first owner reference that marks its owner as the controller. */
  function ControllerOf(owners: seq<OwnerReference>): (c: Option<OwnerReference>)
    ensures c.Some? ==> c.value in owners && c.value.controller
    ensures c.None? <==> forall i :: 0 <= i < |owners| ==> !owners[i].controller
    ensures c.Some? ==> exists i :: 0 <= i < |owners| && owners[i] == c.value &&
                                    forall j :: 0 <= j < i ==> !owners[j].controller
  {
    if owners == [] then None
    else if owners[0].controller then Some(owners[0])
    else ControllerOf(owners[1..])
  }

  /** Adds r as an owner: it replaces the first reference with r's UID, or is
      appended when there is none. */
  function AddOwnerReference(owners: seq<OwnerReference>, r: OwnerReference): (o: seq<OwnerReference>)
    ensures r in o
    ensures |o| == |owners| || o == owners + [r]
    ensures forall x :: x in o ==> x in owners || x == r
    ensures forall x :: x in owners && x.uid != r.uid ==> x in o
    ensures |o| == |owners| <==> exists i :: 0 <= i < |owners| && owners[i].uid == r.uid
    ensures forall i :: (0 <= i < |owners| && owners[i].uid == r.uid &&
                         (forall j :: 0 <= j < i ==> owners[j].uid != r.uid)) ==> o == owners[i := r]
  {
    if owners == [] then [r]
    else if owners[0].uid == r.uid then [r] + owners[1..]
    else [owners[0]] + AddOwnerReference(owners[1..], r)
  }

  /** Makes r the controlling owner; fails when another owner, with a
      different UID, already controls the object. */
  function AddControllerReference(objectName: string, owners: seq<OwnerReference>, r: OwnerReference)
    : Result<seq<OwnerReference>>
  {
    match ControllerOf(owners)
    case Some(c) =>
      if c.uid != r.uid then Err(AlreadyControlled(objectName, c.kind, c.name, c.uid))
      else Ok(AddOwnerReference(owners, r))
    case None => Ok(AddOwnerReference(owners, r))
  }

  /** Adding a controller reference fails exactly when a different controller
      exists, and on success the new reference is the object's controller. */
  lemma {:induction false} AddControllerReferenceSpec(objectName: string, owners: seq<OwnerReference>, r: OwnerReference)
    requires r.controller
    ensures AddControllerReference(objectName, owners, r).Err? <==>
              ControllerOf(owners).Some? && ControllerOf(owners).value.uid != r.uid
    ensures AddControllerReference(objectName, owners, r).Ok? ==>
              ControllerOf(AddControllerReference(objectName, owners, r).value) == Some(r)
  {
    if ControllerOf(owners).None? || ControllerOf(owners).value.uid == r.uid {
      AddOwnerMakesController(owners, r);
    }
  }

  lemma {:induction false} AddOwnerMakesController(owners: seq<OwnerReference>, r: OwnerReference)
    requires r.controller
    requires ControllerOf(owners).None? || ControllerOf(owners).value.uid == r.uid
    ensures ControllerOf(AddOwnerReference(owners, r)) == Some(r)
  {
    if owners != [] && owners[0].uid != r.uid {
      assert !owners[0].controller;
      AddOwnerMakesController(owners[1..], r);
      assert AddOwnerReference(owners, r)[1..] == AddOwnerReference(owners[1..], r);
    }
  }

  /** Adding the same owner twice is the same as adding it once. */
  lemma {:induction false} AddOwnerIdempotent(owners: seq<OwnerReference>, r: OwnerReference)
    ensures AddOwnerReference(AddOwnerReference(owners, r), r) == AddOwnerReference(owners, r)
  {
    if owners != [] && owners[0].uid != r.uid {
      AddOwnerIdempotent(owners[1..], r);
      assert AddOwnerReference(owners, r)[1..] == AddOwnerReference(owners[1..], r);
    }
  }
}
