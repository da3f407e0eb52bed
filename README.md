# Crossplane patch-and-transform composer, modelled in Dafny

This project models four units of Crossplane's patch-and-transform composer
(`internal/controller/apiextensions/composite`). Together they reconcile a
composite resource into the composed resources its composition describes:

- **Positional association** (`AssociateByOrder`). Template i is paired with
  the composite's reference i. A missing reference becomes an empty
  reference, and references beyond the last template are dropped.
- **The garbage-collecting associator** (`GarbageCollectingAssociator.AssociateTemplates`).
  It pairs templates with the referenced resources whose
  `crossplane.io/composition-resource-name` annotation names them. It falls
  back to positional association when a template is anonymous or a
  resource carries no annotation. It deletes resources whose annotation
  names a template that no longer exists, unless another controller owns
  them.
- **The composer** (`PTComposer.Compose`). It runs a staged pipeline:
  1. inline patch sets;
  2. associate templates;
  3. render every composed resource (one that fails to render is skipped
     by the later per-resource stages);
  4. record the references on the composite and persist it;
  5. apply every rendered composed resource;
  6. for each rendered resource: render the composite from it, fetch and extract its
     connection details, and check its readiness;
  7. apply the composite.

  A failure to render a composed resource is only a warning event. Every
  other failure is fatal: it returns an empty result and an error naming
  the stage.
- **The dry-run renderer** (`APIDryRunRenderer.Render`). It decodes the
  template's base into the composed resource and requires the
  `crossplane.io/composite` name-prefix label. It sets the generated-name
  prefix to that label's value plus `-`, copies the prefix and claim labels,
  and makes the composite the controlling owner with block-on-delete. A
  resource without a name is named by a dry-run create (the model also
  skips the dry run for a resource that already has a name; see below).

## How the model is built

- **Modules.**
  - `Types` holds the shared values, the stage markers errors are wrapped
    with, and the two classes updated in place: `Composite`, whose
    references the composer replaces, and `Composed`, which the renderer
    mutates.
  - `Meta` holds owner references: the controlling owner, adding an owner,
    and adding a controller reference.
  - `Association`, `Renderer` and `Composer` model the operations.
  - `AssociationProperties`, `RendererProperties` and `ComposerProperties`
    prove what the operations promise. They also restate each case of the
    source's test tables as a lemma (the members named `…Case`).
- **Method and specification.** Each imperative operation is a method,
  proved equal to a specification function of its inputs:
  - `Association.AssociateTemplates` against `Association.GCAssociate`;
  - `Renderer.Render` against `Renderer.RenderSpec`;
  - `Composer.Compose` against `Composer.ComposeSpec`.

  The properties are proved about the specification functions.
- **The object store and collaborators** become per-call answers:
  - For the associator, the store is a `Lookup` per reference: NotFound,
    a failed Get, or the resource found with its annotation, its owners and
    what deleting it would answer. The deletes it issues are returned as a
    log.
  - For the composer, `Collaborators` holds the answers of every
    collaborator, per association index.
  - For the renderer, the dry-run create is a parameter: the name it would
    generate, or its error.

## Model

| member | source | states |
|---|---|---|
| Association.AssociateByOrder | internal/controller/apiextensions/composite/composition_pt_test.go:643-661 | one association per template, in template order; entry i carries reference i when there is one and the empty reference otherwise |
| Association.ByOrderDropsExtraReferences | internal/controller/apiextensions/composite/composition_pt_test.go:662-670 | with at least as many references as templates, the references past the last template do not affect the result, and entry i carries reference i |
| Association.AssociateTemplates | internal/controller/apiextensions/composite/composition_pt_test.go:683-865 | the scanning method returns exactly the associations and the deletes of the associator's specification; on success, one association per template in template order |
| AssociationProperties.GCDeletesExactlyCollectableOrphans | internal/controller/apiextensions/composite/composition_pt_test.go:782-849 | with every template named, a reference is deleted if and only if it was scanned and names a template that no longer exists and no controller with another UID owns it |
| AssociationProperties.GCSparesForeignOrphans | internal/controller/apiextensions/composite/composition_pt_test.go:782-809 | when the composite's references are distinct, an orphan controlled by another UID is never deleted |
| AssociationProperties.GCAssociatesByAnnotation | internal/controller/apiextensions/composite/composition_pt_test.go:764-781 | when nothing stops the scan, a template is paired with the last reference whose annotation names it |
| AssociationProperties.GCUnmatchedTemplateStaysEmpty | internal/controller/apiextensions/composite/composition_pt_test.go:718-732 | a template no annotation names keeps the empty reference, for example when its resource is NotFound or was collected |
| AssociationProperties.GCUnannotatedFallsBack | internal/controller/apiextensions/composite/composition_pt_test.go:748-763 | the first resource without an annotation makes the associator return positional association over the original references |
| AssociationProperties.GCFailsOnFirstFatalLookup | internal/controller/apiextensions/composite/composition_pt_test.go:733-747 | the associator fails if and only if every template is named and the scan stops at a failed Get or a failed delete; the error is wrapped as GetComposed or GCComposed respectively |
| AssociationProperties.ByOrderCases | internal/controller/apiextensions/composite/composition_pt_test.go:628-681 | the three positional cases: no references, some references, extra references |
| AssociationProperties.GCAnonymousTemplatesCase | internal/controller/apiextensions/composite/composition_pt_test.go:708-717 | an anonymous template gives positional association with no deletes |
| AssociationProperties.GCNotFoundCase | internal/controller/apiextensions/composite/composition_pt_test.go:718-732 | a NotFound resource is skipped and its template keeps the empty reference |
| AssociationProperties.GCGetErrorCase | internal/controller/apiextensions/composite/composition_pt_test.go:733-747 | a failed Get is returned wrapped as GetComposed |
| AssociationProperties.GCUnannotatedCase | internal/controller/apiextensions/composite/composition_pt_test.go:748-763 | an unannotated resource keeps its reference positionally |
| AssociationProperties.GCAnnotatedCase | internal/controller/apiextensions/composite/composition_pt_test.go:764-781 | an annotated resource is bound to the template it names |
| AssociationProperties.GCForeignOrphanCase | internal/controller/apiextensions/composite/composition_pt_test.go:782-809 | a foreign-controlled orphan is neither deleted nor associated |
| AssociationProperties.GCDeleteErrorCase | internal/controller/apiextensions/composite/composition_pt_test.go:810-829 | a failed delete of an orphan is returned wrapped as GCComposed |
| AssociationProperties.GCCollectedCase | internal/controller/apiextensions/composite/composition_pt_test.go:830-849 | a collected orphan is deleted and the template keeps the empty reference |
| Meta.ControllerOf | internal/controller/apiextensions/composite/composition_pt_test.go:559-587 | the controlling owner is the first owner marked as controller, and there is none exactly when no owner is so marked |
| Meta.AddOwnerReference | internal/controller/apiextensions/composite/composition_pt_test.go:588-612 | the new owner is present afterwards; every owner with another UID is kept; nothing else is added; the list keeps its length exactly when some owner already had the new owner's UID, in which case the first such owner is replaced by the new one in place, and otherwise gains the new owner at the end |
| Meta.AddControllerReferenceSpec | internal/controller/apiextensions/composite/composition_pt_test.go:559-612 | adding a controller reference fails if and only if a controller with another UID exists; on success the new reference is the controller |
| Meta.AddOwnerIdempotent | internal/controller/apiextensions/composite/composition_pt_test.go:588-612 | adding the same owner twice equals adding it once |
| Renderer.Render | internal/controller/apiextensions/composite/composition_pt_test.go:490-626 | the in-place renderer leaves the composed resource in the state, and returns the error, of the renderer's specification |
| RendererProperties.RenderRejectsMalformedBase | internal/controller/apiextensions/composite/composition_pt_test.go:511-521 | a base that does not decode fails with Unmarshal and leaves the resource unchanged |
| RendererProperties.RenderRequiresNamePrefix | internal/controller/apiextensions/composite/composition_pt_test.go:522-533 | without the name-prefix label the render fails with MissingNamePrefix; only the decoded content has changed |
| RendererProperties.RenderGivesIdentity | internal/controller/apiextensions/composite/composition_pt_test.go:534-612 | with the label and no foreign controller: the generated-name prefix is the label plus "-", the prefix and claim labels are copied, every other label is kept, and the decoded content is set |
| RendererProperties.RenderMakesCompositeController | internal/controller/apiextensions/composite/composition_pt_test.go:534-612 | with the label and no foreign controller, the composite becomes the controller, with block-on-delete |
| RendererProperties.RenderNamesByDryRun | internal/controller/apiextensions/composite/composition_pt_test.go:534-612 | with the label and no foreign controller, rendering fails if and only if the resource has no name and the dry run fails; that error is wrapped as Name and the other changes stay; otherwise an existing name is kept or the dry run's name is taken |
| RendererProperties.RenderRefusesForeignController | internal/controller/apiextensions/composite/composition_pt_test.go:559-587 | a foreign controller gives SetControllerRef with the conflicting owner; owners and name stay as they were; the generated-name prefix is set and the prefix and claim labels are copied: the resource is left exactly decorated |
| RendererProperties.RenderIdempotent | internal/controller/apiextensions/composite/composition_pt_test.go:588-612 | rendering again a resource that a successful render named is a no-op, whatever the dry run would answer |
| RendererProperties.RenderInvalidTemplateCase | internal/controller/apiextensions/composite/composition_pt_test.go:511-521 | the invalid-template case |
| RendererProperties.RenderNoLabelCase | internal/controller/apiextensions/composite/composition_pt_test.go:522-533 | the missing-label case |
| RendererProperties.RenderDryRunErrorCase | internal/controller/apiextensions/composite/composition_pt_test.go:534-558 | the dry-run error case, with the mutations visible |
| RendererProperties.RenderControllerErrorCase | internal/controller/apiextensions/composite/composition_pt_test.go:559-587 | the foreign-controller case |
| RendererProperties.RenderSuccessCase | internal/controller/apiextensions/composite/composition_pt_test.go:588-612 | the success case: the named resource keeps its name, gains the generated-name prefix, the labels and the controller reference |
| Composer.Compose | internal/controller/apiextensions/composite/composition_pt_test.go:46-488 | the three-loop method returns the result and error of the composer's specification; it sets the composite's references to those rendered once templates are associated |
| Composer.RenderEach | internal/controller/apiextensions/composite/composition_pt_test.go:111-158 | the render loop yields one reference per association, each the one its render gave, and exactly the warnings of the failed renders, in order |
| Composer.ApplyEach | internal/controller/apiextensions/composite/composition_pt_test.go:189-221 | the apply loop fails, wrapped as Apply, with the error of the first rendered resource that fails to apply, and succeeds when none does |
| Composer.ObserveEach | internal/controller/apiextensions/composite/composition_pt_test.go:222-387 | the observation loop yields the first observation failure of a rendered resource, or the composed entries and the merged connection details of all associations |
| Composer.FirstApplyFailure | internal/controller/apiextensions/composite/composition_pt_test.go:189-221 | the index returned is the first rendered resource whose apply fails, or the end when none fails |
| ComposerProperties.ComposeFailsWithEmptyResult | internal/controller/apiextensions/composite/composition_pt_test.go:70-418 | every fatal error comes with an empty result and is wrapped with one of the eight stage markers |
| ComposerProperties.ComposeStagePrecedence | internal/controller/apiextensions/composite/composition_pt_test.go:70-418 | for every answer of the collaborators: a failed inlining is reported as Inline; otherwise a failed association as Associate; otherwise a failed reference update as Update; and, once every rendered resource is applied and observed, a failed composite apply as Update |
| ComposerProperties.ComposeSucceedsIff | internal/controller/apiextensions/composite/composition_pt_test.go:70-470 | composition succeeds if and only if inlining, association, the reference update, every apply, every observation and the composite apply all succeed |
| ComposerProperties.RenderFailuresAreNotFatal | internal/controller/apiextensions/composite/composition_pt_test.go:111-158 | a composition that succeeds still succeeds when more composed resources fail to render |
| ComposerProperties.RenderFailureSkipsResource | internal/controller/apiextensions/composite/composition_pt_test.go:111-158 | a resource that failed to render is skipped: changing its apply, composite-render, fetch, extraction or readiness answers does not change the outcome |
| ComposerProperties.ComposeResultShape | internal/controller/apiextensions/composite/composition_pt_test.go:111-158 | on success: one entry per association, named after its template, ready equal to the readiness verdict for a rendered resource and not ready for one that failed to render; a warning for every failed render and no other warnings |
| ComposerProperties.ComposeWarnings | internal/controller/apiextensions/composite/composition_pt_test.go:148-155 | on success there are exactly as many warnings as composed resources that failed to render, and the warnings of two failed renders appear in association order |
| ComposerProperties.ComposeMergesDetails | internal/controller/apiextensions/composite/composition_pt_test.go:419-470 | on success each connection-detail key holds the value extracted from the last resource that yielded it |
| ComposerProperties.ComposeDetailKeys | internal/controller/apiextensions/composite/composition_pt_test.go:419-470 | on success the connection details hold exactly the keys some resource yielded |
| ComposerProperties.ComposeRecordsReferences | internal/controller/apiextensions/composite/composition_pt_test.go:159-188 | references are recorded if and only if inlining and association succeed, one per association, that of its rendered resource |
| ComposerProperties.ComposeReportsFirstApplyFailure | internal/controller/apiextensions/composite/composition_pt_test.go:189-221 | the first rendered composed resource that fails to apply is the error returned, wrapped as Apply |
| ComposerProperties.ComposeReportsFirstObservationFailure | internal/controller/apiextensions/composite/composition_pt_test.go:222-387 | once every rendered resource is applied, the first resource that fails to be observed decides the error |
| ComposerProperties.ComposedTemplatesErrorCase | internal/controller/apiextensions/composite/composition_pt_test.go:70-91 | an undefined patch set fails with Inline and an empty result |
| ComposerProperties.AssociateTemplatesErrorCase | internal/controller/apiextensions/composite/composition_pt_test.go:92-109 | an associator error is wrapped as Associate |
| ComposerProperties.RenderComposedErrorCase | internal/controller/apiextensions/composite/composition_pt_test.go:111-158 | a render error gives one warning naming cool-resource, the entry is kept not ready even though its readiness check would say ready, and no error is returned |
| ComposerProperties.UpdateCompositeErrorCase | internal/controller/apiextensions/composite/composition_pt_test.go:159-188 | a failed reference update is wrapped as Update |
| ComposerProperties.ApplyComposedErrorCase | internal/controller/apiextensions/composite/composition_pt_test.go:189-221 | a failed apply is wrapped as Apply |
| ComposerProperties.CompositeRenderErrorCase | internal/controller/apiextensions/composite/composition_pt_test.go:222-258 | a composite render error is wrapped as RenderCR |
| ComposerProperties.FetchConnectionDetailsErrorCase | internal/controller/apiextensions/composite/composition_pt_test.go:259-298 | a fetch error is wrapped as FetchDetails |
| ComposerProperties.ExtractConnectionDetailsErrorCase | internal/controller/apiextensions/composite/composition_pt_test.go:299-341 | an extraction error is wrapped as ExtractDetails |
| ComposerProperties.CheckReadinessErrorCase | internal/controller/apiextensions/composite/composition_pt_test.go:342-387 | a readiness error is wrapped as Readiness |
| ComposerProperties.CompositeApplyErrorCase | internal/controller/apiextensions/composite/composition_pt_test.go:388-418 | with no associations, a failed composite apply is wrapped as Update |
| ComposerProperties.SuccessCase | internal/controller/apiextensions/composite/composition_pt_test.go:419-470 | the success case: one ready resource, the extracted details, no events |

## Where the model follows the tests

The model follows the test tables in three places where one might expect
different behaviour:

- An orphan whose owners name no controller at all is deleted. Only an
  orphan controlled by another UID is spared (composition_pt_test.go:810-849).
- A composed resource that fails to render keeps its entry in the result,
  named and not ready, rather than being omitted
  (composition_pt_test.go:148-152).
- The composite's references are recorded and persisted before any
  composed resource is applied (composition_pt_test.go:159-188).

These choices are not fixed by the tests:

- A composed resource that fails to render is not applied, and its
  composite render, connection details and readiness are not consulted, so
  it is reported not ready. The tests cannot tell this apart from applying
  and observing it: the Get and Patch answers of composition_pt_test.go:111-158
  are needed for the composite's own apply too (394-398), and its readiness
  check answers not ready there.
- A resource that already has a name gets no dry-run create. The success
  case (composition_pt_test.go:588-612) answers the dry run without error,
  so it does not decide this.
- A named template's name is written to the resource under the
  `crossplane.io/composition-resource-name` annotation. Every renderer test
  uses an unnamed template.
- When several templates share a name, annotations bind to the last of
  them.
- When several extractions yield the same connection-detail key, the later
  one wins.
- With several associations, the model renders all of them, then applies
  all of them, then observes all of them, in association order; the tests
  use at most one association.

## Left out

- Decoding the template's base (JSON): a base is either well-formed, with
  opaque content, or malformed, with a reason.
- The Kubernetes client and its mocks: Get, Update, Patch, Delete and
  Create are per-call answers, not a store. There is no I/O.
- Patch-set inlining and the patch and transform engine: inlining is an
  answer that succeeds or fails with an undefined patch set.
- What the composite renderer writes back into the composite: the
  composite renderer is only its answer.
- Exact error-message and event text: errors are constructors with stage
  markers.
- Context cancellation.
- Association.AssociateTemplates: a delete that itself answers NotFound is
  modelled as an ordinary delete outcome given by the caller.
- Composer.Compose: a warning about an anonymous template, and the result
  entry for it, name it with the empty string; the tests use named
  templates only.
- Composer.Compose: the environment is not modelled, and neither is the
  stage that patches it, which can fail the composition in the source (the
  tests leave it untested at composition_pt_test.go:110). ComposerProperties.ComposeSucceedsIff
  therefore does not list it among the stages that must succeed.
