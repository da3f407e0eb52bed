/** Associating a composition's templates with the composed resources a
    composite already references: by position, or by the template-name
    annotation with garbage collection of resources whose template is gone. */
module Association {
  import opened Types
  import opened Meta

  /** The reference template i is paired with by position. */
  function RefAt(refs: seq<ObjectRef>, i: nat): ObjectRef {
    if i < |refs| then refs[i] else EmptyRef
  }

  /** Positional association: template i gets reference i, or the empty
      reference when there are fewer references than templates; references
      beyond the last template are dropped. */
  function AssociateByOrder(ts: seq<ComposedTemplate>, refs: seq<ObjectRef>): (tas: seq<TemplateAssociation>)
    ensures |tas| == |ts|
    ensures forall i :: 0 <= i < |ts| ==>
              tas[i] == TemplateAssociation(ts[i], if i < |refs| then refs[i] else EmptyRef)
  {
    if ts == [] then []
    else
      var n := |ts| - 1;
      AssociateByOrder(ts[..n], refs) + [TemplateAssociation(ts[n], RefAt(refs, n))]
  }

  /** Only the first |ts| references matter to positional association. */
  lemma ByOrderDropsExtraReferences(ts: seq<ComposedTemplate>, refs: seq<ObjectRef>)
    requires |ts| <= |refs|
    ensures AssociateByOrder(ts, refs) == AssociateByOrder(ts, refs[..|ts|])
    ensures forall i :: 0 <= i < |ts| ==> AssociateByOrder(ts, refs)[i].reference == refs[i]
  {
    var a, b := AssociateByOrder(ts, refs), AssociateByOrder(ts, refs[..|ts|]);
    forall i | 0 <= i < |ts|
      ensures a[i] == b[i]
    {
      assert refs[..|ts|][i] == refs[i];
    }
  }

  // ---------------------------------------------------------------------
  // The garbage-collecting associator.

  /** What the store answered when a referenced resource was fetched, and,
      should the associator delete it, what the delete answers. */
  datatype Lookup =
    | NotFound
    | GetFailed(err: Error)
    | Found(templateName: string, owners: seq<OwnerReference>, deleteOutcome: Option<Error>)

  /** How the associator treats one referenced resource. */
  datatype Disposition =
    | Gone                    // it no longer exists: skipped
    | Bind(index: nat)        // its annotation names template `index`
    | Unannotated             // it has no annotation: fall back to order
    | Foreign                 // an orphan another controller owns: left alone
    | Collected               // an orphan that was deleted
    | GetError(err: Error)    // fetching it failed
    | DeleteError(err: Error) // deleting the orphan failed

  predicate AllNamed(ts: seq<ComposedTemplate>) {
    forall i :: 0 <= i < |ts| ==> ts[i].name.Some?
  }

  /** The index the name of a template maps to: the last template so named. */
  function NameIndex(ts: seq<ComposedTemplate>, n: string): (r: Option<nat>)
    ensures r.Some? ==> r.value < |ts| && ts[r.value].name == Some(n)
    ensures r.Some? ==> forall j :: r.value < j < |ts| ==> ts[j].name != Some(n)
    ensures r.None? ==> forall j :: 0 <= j < |ts| ==> ts[j].name != Some(n)
  {
    if ts == [] then None
    else if ts[|ts| - 1].name == Some(n) then Some(|ts| - 1)
    else NameIndex(ts[..|ts| - 1], n)
  }

  /** A resource may be garbage collected unless a controller with another
      UID owns it. */
  predicate Collectable(owners: seq<OwnerReference>, uid: string) {
    ControllerOf(owners).None? || ControllerOf(owners).value.uid == uid
  }

  function Classify(ts: seq<ComposedTemplate>, uid: string, l: Lookup): Disposition {
    match l
    case NotFound => Gone
    case GetFailed(e) => GetError(e)
    case Found(a, owners, d) =>
      if a == "" then Unannotated
      else if NameIndex(ts, a).Some? then Bind(NameIndex(ts, a).value)
      else if !Collectable(owners, uid) then Foreign
      else if d.Some? then DeleteError(d.value)
      else Collected
  }

  /** Dispositions that end the scan of the references. */
  predicate Stops(d: Disposition) {
    d.Unannotated? || d.GetError? || d.DeleteError?
  }

  /** Dispositions for which a delete is issued. */
  predicate Deletes(d: Disposition) {
    d.Collected? || d.DeleteError?
  }

  /** The index of the first lookup that ends the scan, or |world|. */
  function FirstStop(ts: seq<ComposedTemplate>, world: seq<Lookup>, uid: string): (s: nat)
    ensures s <= |world|
    ensures forall j :: 0 <= j < s ==> !Stops(Classify(ts, uid, world[j]))
    ensures s < |world| ==> Stops(Classify(ts, uid, world[s]))
  {
    if world == [] then 0
    else if Stops(Classify(ts, uid, world[0])) then 0
    else 1 + FirstStop(ts, world[1..], uid)
  }

  /** The references deleted while scanning refs, in scan order. */
  function Attempted(ts: seq<ComposedTemplate>, refs: seq<ObjectRef>, world: seq<Lookup>, uid: string)
    : seq<ObjectRef>
    requires |world| == |refs|
  {
    if refs == [] then []
    else
      var n := |refs| - 1;
      Attempted(ts, refs[..n], world[..n], uid)
      + (if Deletes(Classify(ts, uid, world[n])) then [refs[n]] else [])
  }

  /** The last reference bound to template i, or the empty reference. */
  function BoundRef(ts: seq<ComposedTemplate>, refs: seq<ObjectRef>, world: seq<Lookup>, uid: string, i: nat)
    : ObjectRef
    requires |world| == |refs|
  {
    if refs == [] then EmptyRef
    else
      var n := |refs| - 1;
      if Classify(ts, uid, world[n]) == Bind(i) then refs[n]
      else BoundRef(ts, refs[..n], world[..n], uid, i)
  }

  function AssociateByName(ts: seq<ComposedTemplate>, refs: seq<ObjectRef>, world: seq<Lookup>, uid: string)
    : seq<TemplateAssociation>
    requires |world| == |refs|
  {
    seq(|ts|, i requires 0 <= i < |ts| => TemplateAssociation(ts[i], BoundRef(ts, refs, world, uid, i)))
  }

  datatype GCOutcome = GCOutcome(result: Result<seq<TemplateAssociation>>, deleted: seq<ObjectRef>)

  /** What the garbage-collecting associator returns, and which deletes it
      issues, given the composite's references, its UID and the store's
      answer for each reference. */
  function GCAssociate(ts: seq<ComposedTemplate>, refs: seq<ObjectRef>, world: seq<Lookup>, uid: string)
    : GCOutcome
    requires |world| == |refs|
  {
    if !AllNamed(ts) then GCOutcome(Ok(AssociateByOrder(ts, refs)), [])
    else
      var s := FirstStop(ts, world, uid);
      if s == |refs| then GCOutcome(Ok(AssociateByName(ts, refs, world, uid)), Attempted(ts, refs, world, uid))
      else
        var gone := Attempted(ts, refs[..s + 1], world[..s + 1], uid);
        var d := Classify(ts, uid, world[s]);
        if d.Unannotated? then GCOutcome(Ok(AssociateByOrder(ts, refs)), gone)
        else if d.GetError? then GCOutcome(Err(Wrap(d.err, GetComposed)), gone)
        else GCOutcome(Err(Wrap(d.err, GCComposed)), gone)
  }

  /** Scanning one more reference: its delete, if any, is appended, and it
      binds the template its disposition names. */
  lemma ScanStep(ts: seq<ComposedTemplate>, refs: seq<ObjectRef>, world: seq<Lookup>, uid: string, k: nat)
    requires |world| == |refs| && k < |refs|
    ensures Attempted(ts, refs[..k + 1], world[..k + 1], uid) ==
              Attempted(ts, refs[..k], world[..k], uid)
              + (if Deletes(Classify(ts, uid, world[k])) then [refs[k]] else [])
    ensures forall i: nat :: BoundRef(ts, refs[..k + 1], world[..k + 1], uid, i) ==
              if Classify(ts, uid, world[k]) == Bind(i) then refs[k]
              else BoundRef(ts, refs[..k], world[..k], uid, i)
  {
    assert refs[..k + 1][..k] == refs[..k];
    assert world[..k + 1][..k] == world[..k];
  }

  /** Maps each template name to the index of the last template bearing it;
      `named` is false when some template has no name. */
  method IndexTemplates(ts: seq<ComposedTemplate>) returns (templates: map<string, nat>, named: bool)
    ensures named == AllNamed(ts)
    ensures named ==> forall n :: n in templates <==> NameIndex(ts, n).Some?
    ensures named ==> forall n :: n in templates ==> templates[n] == NameIndex(ts, n).value
  {
    templates := map[];
    var i := 0;
    while i < |ts|
      invariant 0 <= i <= |ts|
      invariant AllNamed(ts[..i])
      invariant forall n :: n in templates <==> NameIndex(ts[..i], n).Some?
      invariant forall n :: n in templates ==> templates[n] == NameIndex(ts[..i], n).value
    {
      if ts[i].name.None? {
        assert !AllNamed(ts);
        return templates, false;
      }
      assert ts[..i + 1][..i] == ts[..i];
      templates := templates[ts[i].name.value := i];
      i := i + 1;
    }
    assert ts[..i] == ts;
    named := true;
  }

  /** The garbage-collecting associator. world[k] is the store's answer for
      the composite's k-th reference; `deleted` lists the deletes issued. */
  method AssociateTemplates(xr: Composite, ts: seq<ComposedTemplate>, world: seq<Lookup>)
    returns (r: Result<seq<TemplateAssociation>>, deleted: seq<ObjectRef>)
    requires |world| == |xr.refs|
    ensures GCOutcome(r, deleted) == GCAssociate(ts, xr.refs, world, xr.uid)
    ensures r.Ok? ==> |r.value| == |ts|
    ensures r.Ok? ==> forall i :: 0 <= i < |ts| ==> r.value[i].template == ts[i]
  {
    var refs, uid := xr.refs, xr.uid;
    var templates, named := IndexTemplates(ts);
    if !named {
      return Ok(AssociateByOrder(ts, refs)), [];
    }

    var tas := seq(|ts|, j requires 0 <= j < |ts| => TemplateAssociation(ts[j], EmptyRef));
    deleted := [];
    var k := 0;
    while k < |refs|
      decreases |refs| - k
      invariant 0 <= k <= |refs|
      invariant forall j :: 0 <= j < k ==> !Stops(Classify(ts, uid, world[j]))
      invariant |tas| == |ts|
      invariant forall j :: 0 <= j < |ts| ==>
                  tas[j] == TemplateAssociation(ts[j], BoundRef(ts, refs[..k], world[..k], uid, j))
      invariant deleted == Attempted(ts, refs[..k], world[..k], uid)
    {
      ScanStep(ts, refs, world, uid, k);
      var ref := refs[k];
      match world[k] {
        case NotFound =>
        case GetFailed(e) =>
          assert FirstStop(ts, world, uid) == k;
          return Err(Wrap(e, GetComposed)), deleted;
        case Found(a, owners, d) =>
          if a == "" {
            assert FirstStop(ts, world, uid) == k;
            return Ok(AssociateByOrder(ts, refs)), deleted;
          }
          if a in templates {
            var t := templates[a];
            assert Classify(ts, uid, world[k]) == Bind(t);
            tas := tas[t := TemplateAssociation(ts[t], ref)];
          } else if Collectable(owners, uid) {
            deleted := deleted + [ref];
            if d.Some? {
              assert FirstStop(ts, world, uid) == k;
              return Err(Wrap(d.value, GCComposed)), deleted;
            }
          }
      }
      k := k + 1;
    }
    assert refs[..k] == refs && world[..k] == world;
    assert FirstStop(ts, world, uid) == |refs|;
    assert tas == AssociateByName(ts, refs, world, uid);
    r := Ok(tas);
  }
}

module AssociationProperties {
  import opened Types
  import opened Meta
  import opened Association

  /** A referenced resource that names no current template and that no other
      controller owns: the associator deletes it. */
  predicate CollectableOrphan(ts: seq<ComposedTemplate>, uid: string, l: Lookup) {
    l.Found? && l.templateName != "" && NameIndex(ts, l.templateName).None? && Collectable(l.owners, uid)
  }

  lemma {:induction false} AttemptedMembers(ts: seq<ComposedTemplate>, refs: seq<ObjectRef>, world: seq<Lookup>, uid: string)
    requires |world| == |refs|
    ensures forall x :: x in Attempted(ts, refs, world, uid) <==>
              exists j :: 0 <= j < |refs| && refs[j] == x && Deletes(Classify(ts, uid, world[j]))
  {
    if refs != [] {
      var n := |refs| - 1;
      AttemptedMembers(ts, refs[..n], world[..n], uid);
      forall x | x in Attempted(ts, refs, world, uid)
        ensures exists j :: 0 <= j < |refs| && refs[j] == x && Deletes(Classify(ts, uid, world[j]))
      {
        if x in Attempted(ts, refs[..n], world[..n], uid) {
          var j :| 0 <= j < n && refs[..n][j] == x && Deletes(Classify(ts, uid, world[..n][j]));
          assert refs[j] == x && world[j] == world[..n][j];
        }
      }
      forall x | exists j :: 0 <= j < |refs| && refs[j] == x && Deletes(Classify(ts, uid, world[j]))
        ensures x in Attempted(ts, refs, world, uid)
      {
        var j :| 0 <= j < |refs| && refs[j] == x && Deletes(Classify(ts, uid, world[j]));
        if j < n {
          assert refs[..n][j] == x && world[..n][j] == world[j];
        }
      }
    }
  }

  /** Ownership-gated garbage collection: with every template named, a
      reference is deleted exactly when some reference scanned before the
      associator stopped is an orphan that no other controller owns. */
  lemma GCDeletesExactlyCollectableOrphans(ts: seq<ComposedTemplate>, refs: seq<ObjectRef>, world: seq<Lookup>, uid: string)
    requires |world| == |refs|
    requires AllNamed(ts)
    ensures forall x :: x in GCAssociate(ts, refs, world, uid).deleted <==>
              exists j :: 0 <= j < |refs| && j <= FirstStop(ts, world, uid) && refs[j] == x &&
                          CollectableOrphan(ts, uid, world[j])
  {
    var s := FirstStop(ts, world, uid);
    forall j | 0 <= j < |refs|
      ensures Deletes(Classify(ts, uid, world[j])) <==> CollectableOrphan(ts, uid, world[j])
    {
    }
    if s == |refs| {
      AttemptedMembers(ts, refs, world, uid);
    } else {
      AttemptedMembers(ts, refs[..s + 1], world[..s + 1], uid);
      forall j | 0 <= j <= s
        ensures refs[..s + 1][j] == refs[j] && world[..s + 1][j] == world[j]
      {
      }
    }
  }

  /** An orphan that another controller owns is never deleted, when the
      composite's references are distinct. */
  lemma GCSparesForeignOrphans(ts: seq<ComposedTemplate>, refs: seq<ObjectRef>, world: seq<Lookup>, uid: string, j: nat)
    requires |world| == |refs| && j < |refs|
    requires forall a, b :: 0 <= a < b < |refs| ==> refs[a] != refs[b]
    requires world[j].Found? && world[j].templateName != "" && NameIndex(ts, world[j].templateName).None?
    requires !Collectable(world[j].owners, uid)
    ensures refs[j] !in GCAssociate(ts, refs, world, uid).deleted
  {
    if AllNamed(ts) {
      GCDeletesExactlyCollectableOrphans(ts, refs, world, uid);
    }
  }

  /** No reference binds template i: it keeps the empty reference. */
  lemma {:induction false} BoundRefUnbound(ts: seq<ComposedTemplate>, refs: seq<ObjectRef>, world: seq<Lookup>, uid: string, i: nat)
    requires |world| == |refs|
    requires forall j :: 0 <= j < |refs| ==> Classify(ts, uid, world[j]) != Bind(i)
    ensures BoundRef(ts, refs, world, uid, i) == EmptyRef
  {
    if refs != [] {
      var n := |refs| - 1;
      assert forall j :: 0 <= j < n ==> world[..n][j] == world[j];
      BoundRefUnbound(ts, refs[..n], world[..n], uid, i);
    }
  }

  /** The reference bound to template i is the last one whose disposition
      binds i. */
  lemma {:induction false} BoundRefIsLastBinding(ts: seq<ComposedTemplate>, refs: seq<ObjectRef>, world: seq<Lookup>, uid: string, i: nat, j: nat)
    requires |world| == |refs| && j < |refs|
    requires Classify(ts, uid, world[j]) == Bind(i)
    requires forall k :: j < k < |refs| ==> Classify(ts, uid, world[k]) != Bind(i)
    ensures BoundRef(ts, refs, world, uid, i) == refs[j]
  {
    var n := |refs| - 1;
    if j < n {
      assert refs[..n][j] == refs[j] && world[..n][j] == world[j];
      assert forall k :: j < k < n ==> world[..n][k] == world[k];
      BoundRefIsLastBinding(ts, refs[..n], world[..n], uid, i, j);
    }
  }

  /** With every template named and every fetched resource annotated, the
      associator keeps template order and pairs template i with the last
      reference whose annotation names it (template i being the last
      template so named), and with the empty reference otherwise. */
  lemma GCAssociatesByAnnotation(ts: seq<ComposedTemplate>, refs: seq<ObjectRef>, world: seq<Lookup>, uid: string, i: nat, j: nat)
    requires |world| == |refs|
    requires AllNamed(ts)
    requires forall k :: 0 <= k < |refs| ==> !Stops(Classify(ts, uid, world[k]))
    requires i < |ts| && j < |refs|
    requires world[j].Found? && ts[i].name == Some(world[j].templateName)
    requires forall m :: i < m < |ts| ==> ts[m].name != ts[i].name
    requires forall k :: j < k < |refs| ==> !(world[k].Found? && world[k].templateName == world[j].templateName)
    ensures GCAssociate(ts, refs, world, uid).result.Ok?
    ensures GCAssociate(ts, refs, world, uid).result.value[i] == TemplateAssociation(ts[i], refs[j])
  {
    assert FirstStop(ts, world, uid) == |refs|;
    assert NameIndex(ts, world[j].templateName) == Some(i);
    BoundRefIsLastBinding(ts, refs, world, uid, i, j);
  }

  /** A template whose name no fetched resource carries keeps the empty
      reference, whatever became of the other references. */
  lemma GCUnmatchedTemplateStaysEmpty(ts: seq<ComposedTemplate>, refs: seq<ObjectRef>, world: seq<Lookup>, uid: string, i: nat)
    requires |world| == |refs|
    requires AllNamed(ts)
    requires forall k :: 0 <= k < |refs| ==> !Stops(Classify(ts, uid, world[k]))
    requires i < |ts|
    requires forall k :: 0 <= k < |refs| ==> !(world[k].Found? && ts[i].name == Some(world[k].templateName))
    ensures GCAssociate(ts, refs, world, uid).result == Ok(AssociateByName(ts, refs, world, uid))
    ensures GCAssociate(ts, refs, world, uid).result.value[i] == TemplateAssociation(ts[i], EmptyRef)
  {
    assert FirstStop(ts, world, uid) == |refs|;
    BoundRefUnbound(ts, refs, world, uid, i);
  }

  /** The first resource that carries no annotation makes the whole call
      fall back to positional association over the original references. */
  lemma GCUnannotatedFallsBack(ts: seq<ComposedTemplate>, refs: seq<ObjectRef>, world: seq<Lookup>, uid: string, j: nat)
    requires |world| == |refs| && j < |refs|
    requires forall k :: 0 <= k < j ==> !Stops(Classify(ts, uid, world[k]))
    requires world[j].Found? && world[j].templateName == ""
    ensures GCAssociate(ts, refs, world, uid).result == Ok(AssociateByOrder(ts, refs))
  {
    assert AllNamed(ts) ==> FirstStop(ts, world, uid) == j;
  }

  /** The associator fails exactly when, before any unannotated resource, a
      fetch fails with an error other than NotFound (wrapped as GetComposed) or
      deleting an orphan fails (wrapped as GCComposed); it then returns no
      associations. */
  lemma GCFailsOnFirstFatalLookup(ts: seq<ComposedTemplate>, refs: seq<ObjectRef>, world: seq<Lookup>, uid: string)
    requires |world| == |refs|
    ensures var o := GCAssociate(ts, refs, world, uid);
            var s := FirstStop(ts, world, uid);
            o.result.Err? <==> AllNamed(ts) && s < |refs| && !(world[s].Found? && world[s].templateName == "")
    ensures var o := GCAssociate(ts, refs, world, uid);
            var s := FirstStop(ts, world, uid);
            o.result.Err? ==>
              (world[s].GetFailed? && o.result.error == Wrap(world[s].err, GetComposed)) ||
              (CollectableOrphan(ts, uid, world[s]) && world[s].deleteOutcome.Some? &&
               o.result.error == Wrap(world[s].deleteOutcome.value, GCComposed))
  {
  }

  // ---------------------------------------------------------------------
  // The cases of the associators' test tables.

  lemma ByOrderCases()
    ensures var t0, t1, t2 := ComposedTemplate(None, Wellformed("zero")),
                              ComposedTemplate(None, Wellformed("one")),
                              ComposedTemplate(None, Wellformed("two"));
            var r0, r1, r2 := ObjectRef("", "", "zero"), ObjectRef("", "", "one"), ObjectRef("", "", "two");
            AssociateByOrder([t0, t1, t2], []) ==
              [TemplateAssociation(t0, EmptyRef), TemplateAssociation(t1, EmptyRef), TemplateAssociation(t2, EmptyRef)] &&
            AssociateByOrder([t0, t1, t2], [r0, r1]) ==
              [TemplateAssociation(t0, r0), TemplateAssociation(t1, r1), TemplateAssociation(t2, EmptyRef)] &&
            AssociateByOrder([t0, t1], [r0, r1, r2]) ==
              [TemplateAssociation(t0, r0), TemplateAssociation(t1, r1)]
  {
  }

  const Zero := ComposedTemplate(Some("zero"), Wellformed(""))
  const ZeroRef := ObjectRef("", "", "zero")

  lemma GCAnonymousTemplatesCase()
    ensures var anonymous := ComposedTemplate(None, Wellformed(""));
            GCAssociate([Zero, anonymous], [], [], "") ==
              GCOutcome(Ok([TemplateAssociation(Zero, EmptyRef), TemplateAssociation(anonymous, EmptyRef)]), [])
  {
    var anonymous := ComposedTemplate(None, Wellformed(""));
    assert !AllNamed([Zero, anonymous]) by { assert [Zero, anonymous][1].name.None?; }
    var tas := AssociateByOrder([Zero, anonymous], []);
    assert tas[0] == TemplateAssociation(Zero, EmptyRef) && tas[1] == TemplateAssociation(anonymous, EmptyRef);
    assert tas == [TemplateAssociation(Zero, EmptyRef), TemplateAssociation(anonymous, EmptyRef)];
  }

  lemma GCNotFoundCase()
    ensures GCAssociate([Zero], [ZeroRef], [NotFound], "") == GCOutcome(Ok([TemplateAssociation(Zero, EmptyRef)]), [])
  {
    assert AllNamed([Zero]);
    assert FirstStop([Zero], [NotFound], "") == 1;
    assert Attempted([Zero], [ZeroRef], [NotFound], "") == [];
    assert BoundRef([Zero], [ZeroRef], [NotFound], "", 0) == EmptyRef;
    assert AssociateByName([Zero], [ZeroRef], [NotFound], "") == [TemplateAssociation(Zero, EmptyRef)];
  }

  lemma GCGetErrorCase(boom: Error)
    ensures GCAssociate([Zero], [ZeroRef], [GetFailed(boom)], "") == GCOutcome(Err(Wrap(boom, GetComposed)), [])
  {
    assert AllNamed([Zero]);
    assert FirstStop([Zero], [GetFailed(boom)], "") == 0;
    assert [ZeroRef][..1] == [ZeroRef] && [GetFailed(boom)][..1] == [GetFailed(boom)];
    assert Attempted([Zero], [ZeroRef], [GetFailed(boom)], "") == [];
  }

  lemma GCUnannotatedCase()
    ensures GCAssociate([Zero], [ZeroRef], [Found("", [], None)], "") ==
              GCOutcome(Ok([TemplateAssociation(Zero, ZeroRef)]), [])
  {
    assert AllNamed([Zero]);
    assert FirstStop([Zero], [Found("", [], None)], "") == 0;
    assert [ZeroRef][..1] == [ZeroRef] && [Found("", [], None)][..1] == [Found("", [], None)];
    assert Attempted([Zero], [ZeroRef], [Found("", [], None)], "") == [];
    assert AssociateByOrder([Zero], [ZeroRef])[0] == TemplateAssociation(Zero, ZeroRef);
    assert AssociateByOrder([Zero], [ZeroRef]) == [TemplateAssociation(Zero, ZeroRef)];
  }

  lemma GCAnnotatedCase()
    ensures GCAssociate([Zero], [ZeroRef], [Found("zero", [], None)], "") ==
              GCOutcome(Ok([TemplateAssociation(Zero, ZeroRef)]), [])
  {
    assert NameIndex([Zero], "zero") == Some(0);
    assert AllNamed([Zero]);
    assert FirstStop([Zero], [Found("zero", [], None)], "") == 1;
    assert BoundRef([Zero], [ZeroRef], [Found("zero", [], None)], "", 0) == ZeroRef;
    assert Attempted([Zero], [ZeroRef], [Found("zero", [], None)], "") == [];
    assert AssociateByName([Zero], [ZeroRef], [Found("zero", [], None)], "") == [TemplateAssociation(Zero, ZeroRef)];
  }

  lemma GCForeignOrphanCase()
    ensures var foreign := [OwnerReference("", "", "who-dat", true, true)];
            GCAssociate([Zero], [ZeroRef], [Found("unknown", foreign, None)], "very-unique") ==
              GCOutcome(Ok([TemplateAssociation(Zero, EmptyRef)]), [])
  {
    var foreign := [OwnerReference("", "", "who-dat", true, true)];
    assert NameIndex([Zero], "unknown") == None;
    assert ControllerOf(foreign) == Some(foreign[0]);
    assert AllNamed([Zero]);
    assert FirstStop([Zero], [Found("unknown", foreign, None)], "very-unique") == 1;
    assert BoundRef([Zero], [ZeroRef], [Found("unknown", foreign, None)], "very-unique", 0) == EmptyRef;
    assert Attempted([Zero], [ZeroRef], [Found("unknown", foreign, None)], "very-unique") == [];
    assert AssociateByName([Zero], [ZeroRef], [Found("unknown", foreign, None)], "very-unique")
        == [TemplateAssociation(Zero, EmptyRef)];
  }

  lemma GCDeleteErrorCase(boom: Error)
    ensures GCAssociate([Zero], [ZeroRef], [Found("unknown", [], Some(boom))], "") ==
              GCOutcome(Err(Wrap(boom, GCComposed)), [ZeroRef])
  {
    assert AllNamed([Zero]);
    assert NameIndex([Zero], "unknown") == None;
    assert FirstStop([Zero], [Found("unknown", [], Some(boom))], "") == 0;
    assert [ZeroRef][..1] == [ZeroRef] && [Found("unknown", [], Some(boom))][..1] == [Found("unknown", [], Some(boom))];
    assert Attempted([Zero], [ZeroRef], [Found("unknown", [], Some(boom))], "") == [ZeroRef];
  }

  lemma GCCollectedCase()
    ensures GCAssociate([Zero], [ZeroRef], [Found("unknown", [], None)], "") ==
              GCOutcome(Ok([TemplateAssociation(Zero, EmptyRef)]), [ZeroRef])
  {
    assert NameIndex([Zero], "unknown") == None;
    assert AllNamed([Zero]);
    assert FirstStop([Zero], [Found("unknown", [], None)], "") == 1;
    assert BoundRef([Zero], [ZeroRef], [Found("unknown", [], None)], "", 0) == EmptyRef;
    assert Attempted([Zero], [ZeroRef], [Found("unknown", [], None)], "") == [ZeroRef];
    assert AssociateByName([Zero], [ZeroRef], [Found("unknown", [], None)], "") == [TemplateAssociation(Zero, EmptyRef)];
  }
}
