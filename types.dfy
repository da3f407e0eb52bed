/** Values and objects shared by the composer: templates, references, owner
    references, errors with their stage markers, and the two kinds of
    resources (the composite and a composed resource) that are updated in
    place. */
module Types {

  datatype Option<+T> = None | Some(value: T)

  /** An operation that either yields a value or fails with an error. */
  datatype Result<+T> = Ok(value: T) | Err(error: Error)

  /** The marker an error is wrapped with, naming the stage that failed. */
  datatype Stage =
    | Inline            // inlining the composition's patch sets
    | Associate         // associating templates with composed resources
    | Update            // persisting the composite (references, final apply)
    | Apply             // applying a composed resource
    | RenderCR          // rendering the composite from a composed resource
    | FetchDetails      // fetching a composed resource's connection details
    | ExtractDetails    // extracting connection details
    | Readiness         // checking whether a composed resource is ready
    | GetComposed       // fetching a referenced composed resource
    | GCComposed        // garbage collecting a composed resource
    | Unmarshal         // decoding a template's base
    | Name              // naming a composed resource by a dry-run create
    | SetControllerRef  // making the composite the controller
    | ResourceName(resource: string)  // the composed resource a warning is about

  datatype Error =
    | Cause(description: string)         // an error returned by a collaborator
    | UndefinedPatchSet(patchSet: string)
    | MissingNamePrefix                  // the composite has no name-prefix label
    | AlreadyControlled(objectName: string, ownerKind: string, ownerName: string, ownerUID: string)
    | Wrap(inner: Error, stage: Stage)

  /** A reference to an object in the store; the empty reference names nothing. */
  datatype ObjectRef = ObjectRef(kind: string, namespace: string, name: string)

  const EmptyRef := ObjectRef("", "", "")

  /** The serialized base of a template, reduced to whether it decodes. */
  datatype Base = Wellformed(content: string) | Malformed(reason: string)

  /** One entry of a composition: an optional stable name and a base. */
  datatype ComposedTemplate = ComposedTemplate(name: Option<string>, base: Base)

  datatype TemplateAssociation = TemplateAssociation(template: ComposedTemplate, reference: ObjectRef)

  datatype OwnerReference = OwnerReference(
    kind: string, name: string, uid: string, controller: bool, blockOwnerDeletion: bool)

  /** Label keys the composite's identity is copied under, and the
      annotation recording the template a composed resource came from. */
  const LabelNamePrefix := "crossplane.io/composite"
  const LabelClaimName := "crossplane.io/claim-name"
  const LabelClaimNamespace := "crossplane.io/claim-namespace"
  const AnnotationResourceName := "crossplane.io/composition-resource-name"

  /** The value of a label, or the empty string when it is unset. */
  function Label(labels: map<string, string>, key: string): string {
    if key in labels then labels[key] else ""
  }

  /** The name a template gives to the resource composed from it. */
  function TemplateName(t: ComposedTemplate): string {
    match t.name
    case Some(n) => n
    case None => ""
  }

  /** What a renderer reads of the composite: its identity and labels. */
  datatype CompositeIdentity = CompositeIdentity(
    kind: string, name: string, uid: string, labels: map<string, string>)

  /** The high-level resource. The composer replaces its references. */
  class Composite {
    var kind: string
    var name: string
    var uid: string
    var labels: map<string, string>
    var refs: seq<ObjectRef>

    function Identity(): CompositeIdentity
      reads this
    {
      CompositeIdentity(kind, name, uid, labels)
    }
  }

  /** The metadata and template-defined content of a composed resource. */
  datatype ComposedState = ComposedState(
    name: string,
    generateName: string,
    labels: map<string, string>,
    annotations: map<string, string>,
    owners: seq<OwnerReference>,
    content: string)

  /** A composed resource that a renderer updates in place. */
  class Composed {
    var name: string
    var generateName: string
    var labels: map<string, string>
    var annotations: map<string, string>
    var owners: seq<OwnerReference>
    var content: string

    function State(): ComposedState
      reads this
    {
      ComposedState(name, generateName, labels, annotations, owners, content)
    }
  }
}
