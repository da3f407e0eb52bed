/** The renderer that gives a composed resource its durable identity: a
    generated-name prefix and labels derived from the composite, the
    composite as its controller, and a name obtained by a dry-run create. */
module Renderer {
  import opened Types
  import opened Meta

  /** The reference that makes the composite the controller of a composed
      resource, blocking the composite's deletion while it exists. */
  function ControllerReference(cp: CompositeIdentity): OwnerReference {
    OwnerReference(cp.kind, cp.name, cp.uid, true, true)
  }

  /** The composite's name prefix and claim labels, copied onto labels. */
  function IdentityLabels(labels: map<string, string>, cp: CompositeIdentity): map<string, string> {
    labels[LabelNamePrefix := Label(cp.labels, LabelNamePrefix)]
          [LabelClaimName := Label(cp.labels, LabelClaimName)]
          [LabelClaimNamespace := Label(cp.labels, LabelClaimNamespace)]
  }

  /** Sets the generated-name prefix, the identity labels and, for a named
      template, the annotation recording the template's name. */
  function Decorate(cp: CompositeIdentity, s: ComposedState, t: ComposedTemplate): ComposedState {
    s.(generateName := Label(cp.labels, LabelNamePrefix) + "-",
       labels := IdentityLabels(s.labels, cp),
       annotations := match t.name
                      case Some(n) => s.annotations[AnnotationResourceName := n]
                      case None => s.annotations)
  }

  datatype RenderOutcome = RenderOutcome(state: ComposedState, err: Option<Error>)

  /** What rendering does to a composed resource in state s, given what a
      dry-run create would answer (the name the store generates, or an error). */
  function RenderSpec(cp: CompositeIdentity, s: ComposedState, t: ComposedTemplate, dryRun: Result<string>)
    : RenderOutcome
  {
    match t.base
    case Malformed(reason) => RenderOutcome(s, Some(Wrap(Cause(reason), Unmarshal)))
    case Wellformed(content) =>
      var decoded := s.(content := content);
      var prefix := Label(cp.labels, LabelNamePrefix);
      if prefix == "" then RenderOutcome(decoded, Some(MissingNamePrefix))
      else
        var labelled := Decorate(cp, decoded, t);
        match AddControllerReference(labelled.name, labelled.owners, ControllerReference(cp))
        case Err(e) => RenderOutcome(labelled, Some(Wrap(e, SetControllerRef)))
        case Ok(owners) =>
          var owned := labelled.(owners := owners);
          if owned.name != "" then RenderOutcome(owned, None)
          else match dryRun
            case Err(e) => RenderOutcome(owned, Some(Wrap(e, Name)))
            case Ok(n) => RenderOutcome(owned.(name := n), None)
  }

  /** Renders the template's base onto cd and gives it its identity. */
  method Render(cp: Composite, cd: Composed, t: ComposedTemplate, dryRun: Result<string>) returns (err: Option<Error>)
    modifies cd
    ensures RenderOutcome(cd.State(), err) == RenderSpec(cp.Identity(), old(cd.State()), t, dryRun)
  {
    match t.base {
      case Malformed(reason) =>
        return Some(Wrap(Cause(reason), Unmarshal));
      case Wellformed(content) =>
        cd.content := content;
    }
    var prefix := Label(cp.labels, LabelNamePrefix);
    if prefix == "" {
      return Some(MissingNamePrefix);
    }
    cd.generateName := prefix + "-";
    cd.labels := IdentityLabels(cd.labels, cp.Identity());
    if t.name.Some? {
      cd.annotations := cd.annotations[AnnotationResourceName := t.name.value];
    }
    var owners := AddControllerReference(cd.name, cd.owners, ControllerReference(cp.Identity()));
    if owners.Err? {
      return Some(Wrap(owners.error, SetControllerRef));
    }
    cd.owners := owners.value;
    if cd.name != "" {
      return None;
    }
    match dryRun {
      case Err(e) =>
        return Some(Wrap(e, Name));
      case Ok(n) =>
        cd.name := n;
        return None;
    }
  }
}

module RendererProperties {
  import opened Types
  import opened Meta
  import opened Renderer

  /** A base that does not decode fails with Unmarshal and leaves the
      resource exactly as it was. */
  lemma RenderRejectsMalformedBase(cp: CompositeIdentity, s: ComposedState, t: ComposedTemplate, dryRun: Result<string>)
    requires t.base.Malformed?
    ensures RenderSpec(cp, s, t, dryRun) == RenderOutcome(s, Some(Wrap(Cause(t.base.reason), Unmarshal)))
  {
  }

  /** Without a name-prefix label rendering fails with MissingNamePrefix; the
      resource's name, labels, annotations and owners are untouched. */
  lemma RenderRequiresNamePrefix(cp: CompositeIdentity, s: ComposedState, t: ComposedTemplate, dryRun: Result<string>)
    requires t.base.Wellformed?
    requires Label(cp.labels, LabelNamePrefix) == ""
    ensures RenderSpec(cp, s, t, dryRun).err == Some(MissingNamePrefix)
    ensures RenderSpec(cp, s, t, dryRun).state == s.(content := t.base.content)
  {
  }

  /** With a name prefix and no conflicting controller, rendering decorates
      the decoded resource, makes the composite its controller, and asks the
      dry run for a name only when the resource has none. */
  lemma RenderOwned(cp: CompositeIdentity, s: ComposedState, t: ComposedTemplate, dryRun: Result<string>)
    requires t.base.Wellformed?
    requires Label(cp.labels, LabelNamePrefix) != ""
    requires ControllerOf(s.owners).None? || ControllerOf(s.owners).value.uid == cp.uid
    ensures AddControllerReference(s.name, s.owners, ControllerReference(cp)).Ok?
    ensures ControllerOf(AddControllerReference(s.name, s.owners, ControllerReference(cp)).value) == Some(ControllerReference(cp))
    ensures var owned := Decorate(cp, s.(content := t.base.content), t)
                           .(owners := AddControllerReference(s.name, s.owners, ControllerReference(cp)).value);
            RenderSpec(cp, s, t, dryRun) ==
              if s.name != "" then RenderOutcome(owned, None)
              else match dryRun
                case Err(e) => RenderOutcome(owned, Some(Wrap(e, Name)))
                case Ok(n) => RenderOutcome(owned.(name := n), None)
  {
    var labelled := Decorate(cp, s.(content := t.base.content), t);
    assert labelled.name == s.name && labelled.owners == s.owners;
    AddControllerReferenceSpec(s.name, s.owners, ControllerReference(cp));
  }

  /** With a name prefix and no conflicting controller, rendering sets the
      generated-name prefix to the label plus "-" and copies the prefix and
      claim labels, keeping every other label. */
  lemma RenderGivesIdentity(cp: CompositeIdentity, s: ComposedState, t: ComposedTemplate, dryRun: Result<string>)
    requires t.base.Wellformed?
    requires Label(cp.labels, LabelNamePrefix) != ""
    requires ControllerOf(s.owners).None? || ControllerOf(s.owners).value.uid == cp.uid
    ensures var o := RenderSpec(cp, s, t, dryRun);
            o.state.generateName == Label(cp.labels, LabelNamePrefix) + "-" &&
            o.state.labels[LabelNamePrefix] == Label(cp.labels, LabelNamePrefix) &&
            o.state.labels[LabelClaimName] == Label(cp.labels, LabelClaimName) &&
            o.state.labels[LabelClaimNamespace] == Label(cp.labels, LabelClaimNamespace) &&
            o.state.content == t.base.content
    ensures var o := RenderSpec(cp, s, t, dryRun);
            forall k :: k in s.labels && k != LabelNamePrefix && k != LabelClaimName && k != LabelClaimNamespace ==>
              k in o.state.labels && o.state.labels[k] == s.labels[k]
  {
    RenderOwned(cp, s, t, dryRun);
  }

  /** With a name prefix and no conflicting controller, the composite becomes
      the resource's controller, blocking the composite's deletion. */
  lemma RenderMakesCompositeController(cp: CompositeIdentity, s: ComposedState, t: ComposedTemplate, dryRun: Result<string>)
    requires t.base.Wellformed?
    requires Label(cp.labels, LabelNamePrefix) != ""
    requires ControllerOf(s.owners).None? || ControllerOf(s.owners).value.uid == cp.uid
    ensures ControllerOf(RenderSpec(cp, s, t, dryRun).state.owners) == Some(OwnerReference(cp.kind, cp.name, cp.uid, true, true))
  {
    RenderOwned(cp, s, t, dryRun);
  }

  /** With a name prefix and no conflicting controller, the only error left
      is the dry run's, met only by a resource without a name; an existing
      name is kept, and otherwise the dry run's name is taken. */
  lemma RenderNamesByDryRun(cp: CompositeIdentity, s: ComposedState, t: ComposedTemplate, dryRun: Result<string>)
    requires t.base.Wellformed?
    requires Label(cp.labels, LabelNamePrefix) != ""
    requires ControllerOf(s.owners).None? || ControllerOf(s.owners).value.uid == cp.uid
    ensures var o := RenderSpec(cp, s, t, dryRun);
            (o.err.Some? <==> s.name == "" && dryRun.Err?) &&
            (o.err.Some? ==> o.err.value == Wrap(dryRun.error, Name) && o.state.name == "") &&
            (o.err.None? ==> o.state.name == if s.name != "" then s.name else dryRun.value)
  {
    RenderOwned(cp, s, t, dryRun);
  }

  /** A resource already controlled by another owner is a conflict: rendering
      fails with SetControllerRef, keeps the owners it had and tries no dry
      run, though the generated-name prefix and the prefix and claim labels
      have been set: the resource is left decorated and nothing more. */
  lemma RenderRefusesForeignController(cp: CompositeIdentity, s: ComposedState, t: ComposedTemplate, dryRun: Result<string>)
    requires t.base.Wellformed?
    requires Label(cp.labels, LabelNamePrefix) != ""
    requires ControllerOf(s.owners).Some? && ControllerOf(s.owners).value.uid != cp.uid
    ensures var c := ControllerOf(s.owners).value;
            var o := RenderSpec(cp, s, t, dryRun);
            o.err == Some(Wrap(AlreadyControlled(s.name, c.kind, c.name, c.uid), SetControllerRef)) &&
            o.state.owners == s.owners && o.state.name == s.name &&
            o.state.generateName == Label(cp.labels, LabelNamePrefix) + "-"
    ensures var o := RenderSpec(cp, s, t, dryRun);
            o.state.labels[LabelNamePrefix] == Label(cp.labels, LabelNamePrefix) &&
            o.state.labels[LabelClaimName] == Label(cp.labels, LabelClaimName) &&
            o.state.labels[LabelClaimNamespace] == Label(cp.labels, LabelClaimNamespace)
    ensures RenderSpec(cp, s, t, dryRun).state == Decorate(cp, s.(content := t.base.content), t)
  {
  }

  lemma DecorateIdempotent(cp: CompositeIdentity, s: ComposedState, t: ComposedTemplate)
    ensures Decorate(cp, Decorate(cp, s, t), t) == Decorate(cp, s, t)
  {
    var m := IdentityLabels(s.labels, cp);
    assert IdentityLabels(m, cp) == m;
    match t.name {
      case Some(n) =>
        var a := s.annotations[AnnotationResourceName := n];
        assert a[AnnotationResourceName := n] == a;
      case None =>
    }
  }

  /** Naming idempotence: rendering a resource that a successful render has
      already named and made owned is a no-op, whatever a dry run would say. */
  lemma RenderIdempotent(cp: CompositeIdentity, s: ComposedState, t: ComposedTemplate, d1: Result<string>, d2: Result<string>)
    requires RenderSpec(cp, s, t, d1).err.None?
    requires RenderSpec(cp, s, t, d1).state.name != ""
    ensures RenderSpec(cp, RenderSpec(cp, s, t, d1).state, t, d2) == RenderOutcome(RenderSpec(cp, s, t, d1).state, None)
  {
    var r := ControllerReference(cp);
    var s1 := RenderSpec(cp, s, t, d1).state;
    assert t.base.Wellformed? && Label(cp.labels, LabelNamePrefix) != "";
    var labelled := Decorate(cp, s.(content := t.base.content), t);
    assert labelled.name == s.name && labelled.owners == s.owners;
    AddControllerReferenceSpec(s.name, s.owners, r);
    assert AddControllerReference(s.name, s.owners, r).Ok?;
    RenderNamesByDryRun(cp, s, t, d1);
    var owners := AddControllerReference(s.name, s.owners, r).value;
    assert owners == AddOwnerReference(s.owners, r);
    assert s1.owners == owners;
    AddOwnerIdempotent(s.owners, r);
    AddControllerReferenceSpec(s1.name, s1.owners, r);
    assert AddControllerReference(s1.name, s1.owners, r) == Ok(s1.owners);
    DecorateIdempotent(cp, s.(content := t.base.content), t);
    assert s1 == labelled.(owners := owners, name := s1.name);
    assert Decorate(cp, s1.(content := t.base.content), t) == s1;
  }

  // ---------------------------------------------------------------------
  // The cases of the renderer's test table.

  const Labelled := CompositeIdentity("", "", "", map[
    LabelNamePrefix := "ola", LabelClaimName := "rola", LabelClaimNamespace := "rolans"])

  const Owned := [OwnerReference("", "", "", true, true)]

  const Base := ComposedTemplate(None, Wellformed("{}"))

  lemma RenderInvalidTemplateCase(boom: Error, cpAny: CompositeIdentity)
    ensures var s := ComposedState("", "", map[], map[], [], "");
            RenderSpec(cpAny, s, ComposedTemplate(None, Malformed("olala")), Err(boom)) ==
              RenderOutcome(s, Some(Wrap(Cause("olala"), Unmarshal)))
  {
  }

  lemma RenderNoLabelCase(boom: Error)
    ensures var s := ComposedState("cd", "", map[], map[], [], "{}");
            RenderSpec(CompositeIdentity("", "", "", map[]), s, Base, Err(boom)) ==
              RenderOutcome(s, Some(MissingNamePrefix))
  {
  }

  lemma RenderDryRunErrorCase(boom: Error)
    ensures RenderSpec(Labelled, ComposedState("", "", map[], map[], [], "{}"), Base, Err(boom)) ==
              RenderOutcome(ComposedState("", "ola-", Labelled.labels, map[], Owned, "{}"), Some(Wrap(boom, Name)))
  {
    assert Label(Labelled.labels, LabelNamePrefix) == "ola";
    assert IdentityLabels(map[], Labelled) == Labelled.labels;
  }

  lemma RenderControllerErrorCase(boom: Error)
    ensures var foreign := [OwnerReference("", "", "random_uid", true, true)];
            RenderSpec(Labelled, ComposedState("cd", "", map[], map[], foreign, "{}"), Base, Ok("generated")) ==
              RenderOutcome(ComposedState("cd", "ola-", Labelled.labels, map[], foreign, "{}"),
                            Some(Wrap(AlreadyControlled("cd", "", "", "random_uid"), SetControllerRef)))
  {
    assert Label(Labelled.labels, LabelNamePrefix) == "ola";
    assert IdentityLabels(map[], Labelled) == Labelled.labels;
  }

  lemma RenderSuccessCase()
    ensures RenderSpec(Labelled, ComposedState("cd", "", map[], map[], [], "{}"), Base, Ok("cd")) ==
              RenderOutcome(ComposedState("cd", "ola-", Labelled.labels, map[], Owned, "{}"), None)
  {
    assert Label(Labelled.labels, LabelNamePrefix) == "ola";
    assert IdentityLabels(map[], Labelled) == Labelled.labels;
  }
}
