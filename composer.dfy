/** The composer: renders, persists and observes the composed resources of a
    composite, with a partial-failure policy. Its collaborators (patch-set
    inlining, the template associator, both renderers, the store, the
    connection-details fetcher and extractor and the readiness checker) are
    reduced to the answers they give on each call. */
module Composer {
  import opened Types

  type Details = map<string, seq<bv8>>

  datatype Reason = ComposeResources

  datatype Event = Warning(reason: Reason, err: Error)

  datatype ComposedResource = ComposedResource(resourceName: string, ready: bool)

  datatype CompositionResult = CompositionResult(
    composed: seq<ComposedResource>, connectionDetails: Details, events: seq<Event>)

  const EmptyResult := CompositionResult([], map[], [])

  /** The composed renderer's answer for one association: the reference of
      the object it rendered, and its error, if any. */
  datatype Rendered = Rendered(ref: ObjectRef, err: Option<Error>)

  /** The answer of each collaborator; functions of nat answer for the
      association with that index. */
  datatype Collaborators = Collaborators(
    inline: seq<ComposedTemplate> -> Result<seq<ComposedTemplate>>,
    associate: seq<ComposedTemplate> -> Result<seq<TemplateAssociation>>,
    renderComposed: nat -> Rendered,
    update: Option<Error>,
    apply: nat -> Option<Error>,
    renderComposite: nat -> Option<Error>,
    fetch: nat -> Result<Details>,
    extract: (nat, Details) -> Result<Details>,
    ready: nat -> Result<bool>,
    applyComposite: Option<Error>)

  /** The warning recorded when rendering association i's resource fails. */
  function RenderWarning(tas: seq<TemplateAssociation>, i: nat, e: Error): Event
    requires i < |tas|
  {
    Warning(ComposeResources, Wrap(e, ResourceName(TemplateName(tas[i].template))))
  }

  /** The warnings for the first n associations, in order. */
  function Warnings(tas: seq<TemplateAssociation>, c: Collaborators, n: nat): seq<Event>
    requires n <= |tas|
  {
    if n == 0 then []
    else
      var r := c.renderComposed(n - 1);
      Warnings(tas, c, n - 1) + (if r.err.Some? then [RenderWarning(tas, n - 1, r.err.value)] else [])
  }

  /** The composite's references after rendering n associations. */
  function RenderedRefs(c: Collaborators, n: nat): seq<ObjectRef> {
    seq(n, i requires 0 <= i < n => c.renderComposed(i).ref)
  }

  /** Association i's resource failed to render; it is neither applied
      nor observed, and is reported as not ready. */
  predicate RenderFailed(c: Collaborators, i: nat) {
    c.renderComposed(i).err.Some?
  }

  /** The first index in [from, n) of a rendered resource that fails to
      apply, or n. */
  function FirstApplyFailure(c: Collaborators, from: nat, n: nat): (k: nat)
    requires from <= n
    ensures from <= k <= n
    ensures forall j :: from <= j < k ==> RenderFailed(c, j) || c.apply(j).None?
    ensures k < n ==> !RenderFailed(c, k) && c.apply(k).Some?
    decreases n - from
  {
    if from == n then n
    else if !RenderFailed(c, from) && c.apply(from).Some? then from
    else FirstApplyFailure(c, from + 1, n)
  }

  datatype Observation = Observation(resource: ComposedResource, extracted: Details)

  /** Composite render, connection-details fetch and extraction, and the
      readiness check of association i (the order in which they can fail);
      a resource that failed to render is skipped and not ready. */
  function ObserveOne(tas: seq<TemplateAssociation>, c: Collaborators, i: nat): Result<Observation>
    requires i < |tas|
  {
    if RenderFailed(c, i) then Ok(Observation(ComposedResource(TemplateName(tas[i].template), false), map[]))
    else if c.renderComposite(i).Some? then Err(Wrap(c.renderComposite(i).value, RenderCR))
    else match c.fetch(i)
      case Err(e) => Err(Wrap(e, FetchDetails))
      case Ok(conn) =>
        match c.extract(i, conn)
        case Err(e) => Err(Wrap(e, ExtractDetails))
        case Ok(extracted) =>
          match c.ready(i)
          case Err(e) => Err(Wrap(e, Readiness))
          case Ok(ready) => Ok(Observation(ComposedResource(TemplateName(tas[i].template), ready), extracted))
  }

  datatype Observed = Observed(composed: seq<ComposedResource>, details: Details)

  /** Observing the first n associations: the first failure, or the
      resources and the connection details merged so far (a later extraction
      overwrites an earlier one's keys). */
  function ObserveAll(tas: seq<TemplateAssociation>, c: Collaborators, n: nat): Result<Observed>
    requires n <= |tas|
  {
    if n == 0 then Ok(Observed([], map[]))
    else
      match ObserveAll(tas, c, n - 1)
      case Err(e) => Err(e)
      case Ok(o) =>
        match ObserveOne(tas, c, n - 1)
        case Err(e) => Err(e)
        case Ok(ob) => Ok(Observed(o.composed + [ob.resource], o.details + ob.extracted))
  }

  /** The outcome of one composition: the result, the error, and the
      references the composite holds afterwards when Compose set them. */
  datatype Composition = Composition(result: CompositionResult, err: Option<Error>, refs: Option<seq<ObjectRef>>)

  function Fatal(e: Error, refs: Option<seq<ObjectRef>>): Composition {
    Composition(EmptyResult, Some(e), refs)
  }

  /** What Compose returns for templates ts given its collaborators' answers. */
  function ComposeSpec(ts: seq<ComposedTemplate>, c: Collaborators): Composition {
    match c.inline(ts)
    case Err(e) => Fatal(Wrap(e, Inline), None)
    case Ok(ct) =>
      match c.associate(ct)
      case Err(e) => Fatal(Wrap(e, Associate), None)
      case Ok(tas) =>
        var n := |tas|;
        var refs := RenderedRefs(c, n);
        var k := FirstApplyFailure(c, 0, n);
        if c.update.Some? then Fatal(Wrap(c.update.value, Update), Some(refs))
        else if k < n then Fatal(Wrap(c.apply(k).value, Apply), Some(refs))
        else
          match ObserveAll(tas, c, n)
          case Err(e) => Fatal(e, Some(refs))
          case Ok(o) =>
            if c.applyComposite.Some? then Fatal(Wrap(c.applyComposite.value, Update), Some(refs))
            else Composition(CompositionResult(o.composed, o.details, Warnings(tas, c, n)), None, Some(refs))
  }

  /** Once one observation fails, observing more associations fails with
      the same error. */
  lemma {:induction false} ObserveAllStops(tas: seq<TemplateAssociation>, c: Collaborators, i: nat, n: nat)
    requires i < n <= |tas|
    requires ObserveAll(tas, c, i).Ok? && ObserveOne(tas, c, i).Err?
    ensures ObserveAll(tas, c, n) == Err(ObserveOne(tas, c, i).error)
  {
    if n > i + 1 {
      ObserveAllStops(tas, c, i, n - 1);
    }
  }

  /** Renders every composed resource; a failure is only a warning. */
  method RenderEach(tas: seq<TemplateAssociation>, c: Collaborators)
    returns (refs: seq<ObjectRef>, events: seq<Event>)
    ensures refs == RenderedRefs(c, |tas|) && events == Warnings(tas, c, |tas|)
  {
    events, refs := [], [];
    var i := 0;
    while i < |tas|
      invariant 0 <= i <= |tas|
      invariant |refs| == i && forall j :: 0 <= j < i ==> refs[j] == c.renderComposed(j).ref
      invariant events == Warnings(tas, c, i)
    {
      var r := c.renderComposed(i);
      if r.err.Some? {
        events := events + [RenderWarning(tas, i, r.err.value)];
      }
      refs := refs + [r.ref];
      i := i + 1;
    }
  }

  /** Applies the first n composed resources that rendered, stopping at the
      first failure. */
  method ApplyEach(c: Collaborators, n: nat) returns (failure: Option<Error>)
    ensures var k := FirstApplyFailure(c, 0, n);
            failure == if k < n then Some(Wrap(c.apply(k).value, Apply)) else None
  {
    var i := 0;
    while i < n
      invariant 0 <= i <= n
      invariant forall j :: 0 <= j < i ==> RenderFailed(c, j) || c.apply(j).None?
    {
      if !RenderFailed(c, i) && c.apply(i).Some? {
        assert FirstApplyFailure(c, 0, n) == i;
        return Some(Wrap(c.apply(i).value, Apply));
      }
      i := i + 1;
    }
    assert FirstApplyFailure(c, 0, n) == n;
    return None;
  }

  /** Observes every composed resource and merges its connection details,
      stopping at the first failure. */
  method ObserveEach(tas: seq<TemplateAssociation>, c: Collaborators) returns (r: Result<Observed>)
    ensures r == ObserveAll(tas, c, |tas|)
  {
    var composed: seq<ComposedResource> := [];
    var details: Details := map[];
    var i := 0;
    while i < |tas|
      invariant 0 <= i <= |tas|
      invariant ObserveAll(tas, c, i) == Ok(Observed(composed, details))
    {
      if RenderFailed(c, i) {
        assert details + map[] == details;
        composed := composed + [ComposedResource(TemplateName(tas[i].template), false)];
        i := i + 1;
        continue;
      }
      var failure: Option<Error> := None;
      if c.renderComposite(i).Some? {
        failure := Some(Wrap(c.renderComposite(i).value, RenderCR));
      } else if c.fetch(i).Err? {
        failure := Some(Wrap(c.fetch(i).error, FetchDetails));
      } else if c.extract(i, c.fetch(i).value).Err? {
        failure := Some(Wrap(c.extract(i, c.fetch(i).value).error, ExtractDetails));
      } else if c.ready(i).Err? {
        failure := Some(Wrap(c.ready(i).error, Readiness));
      }
      if failure.Some? {
        assert ObserveOne(tas, c, i) == Err(failure.value);
        ObserveAllStops(tas, c, i, |tas|);
        return Err(failure.value);
      }
      var extracted := c.extract(i, c.fetch(i).value).value;
      details := details + extracted;
      composed := composed + [ComposedResource(TemplateName(tas[i].template), c.ready(i).value)];
      i := i + 1;
    }
    return Ok(Observed(composed, details));
  }

  /** Composes the composite's resources; xr's references are replaced by
      those of the rendered resources before they are persisted. */
  method Compose(xr: Composite, ts: seq<ComposedTemplate>, c: Collaborators)
    returns (res: CompositionResult, err: Option<Error>)
    modifies xr`refs
    ensures res == ComposeSpec(ts, c).result && err == ComposeSpec(ts, c).err
    ensures xr.refs == if ComposeSpec(ts, c).refs.Some? then ComposeSpec(ts, c).refs.value else old(xr.refs)
  {
    var ct: seq<ComposedTemplate>;
    match c.inline(ts) {
      case Err(e) => return EmptyResult, Some(Wrap(e, Inline));
      case Ok(v) => ct := v;
    }
    var tas: seq<TemplateAssociation>;
    match c.associate(ct) {
      case Err(e) => return EmptyResult, Some(Wrap(e, Associate));
      case Ok(v) => tas := v;
    }
    var refs, events := RenderEach(tas, c);

    // Persist the references before anything is applied.
    xr.refs := refs;
    if c.update.Some? {
      return EmptyResult, Some(Wrap(c.update.value, Update));
    }
    var failure := ApplyEach(c, |tas|);
    if failure.Some? {
      return EmptyResult, failure;
    }
    var observed := ObserveEach(tas, c);
    if observed.Err? {
      return EmptyResult, Some(observed.error);
    }

    // Persist the composite itself.
    if c.applyComposite.Some? {
      return EmptyResult, Some(Wrap(c.applyComposite.value, Update));
    }
    return CompositionResult(observed.value.composed, observed.value.details, events), None;
  }
}

/** What composition promises: which failures are fatal and which are only
    warnings, the shape of a successful result, and how connection details
    from several resources are merged. */
module ComposerProperties {
  import opened Types
  import opened Composer

  /** The stage markers a fatal composition error carries. */
  predicate ComposeStageError(e: Error) {
    e.Wrap? && e.stage in {Inline, Associate, Update, Apply, RenderCR, FetchDetails, ExtractDetails, Readiness}
  }

  /** Association i's resource was skipped, or its composite render,
      details fetch and extraction and readiness check all succeed. */
  predicate ObservesCleanly(c: Collaborators, i: nat) {
    RenderFailed(c, i) ||
    (c.renderComposite(i).None? && c.fetch(i).Ok? && c.extract(i, c.fetch(i).value).Ok? && c.ready(i).Ok?)
  }

  /** Every stage that can fail a composition succeeds. */
  predicate StagesSucceed(ts: seq<ComposedTemplate>, c: Collaborators) {
    c.inline(ts).Ok? && c.associate(c.inline(ts).value).Ok? && c.update.None? && c.applyComposite.None? &&
    forall i :: 0 <= i < |c.associate(c.inline(ts).value).value| ==>
      (RenderFailed(c, i) || c.apply(i).None?) && ObservesCleanly(c, i)
  }

  /** The connection details extracted from association i, when it was
      rendered and there are any. */
  function Extracted(c: Collaborators, i: nat): Details {
    if !RenderFailed(c, i) && c.fetch(i).Ok? && c.extract(i, c.fetch(i).value).Ok? then
      c.extract(i, c.fetch(i).value).value
    else map[]
  }

  /** Whether the resource of association i is ready: never, when it failed
      to render, and otherwise as its readiness check says. */
  function ReadyVerdict(c: Collaborators, i: nat): bool
    requires ObservesCleanly(c, i)
  {
    if RenderFailed(c, i) then false else c.ready(i).value
  }

  lemma {:induction false} ObserveAllErrorStage(tas: seq<TemplateAssociation>, c: Collaborators, n: nat)
    requires n <= |tas|
    ensures ObserveAll(tas, c, n).Err? ==>
              ObserveAll(tas, c, n).error.Wrap? &&
              ObserveAll(tas, c, n).error.stage in {RenderCR, FetchDetails, ExtractDetails, Readiness}
  {
    if n > 0 {
      ObserveAllErrorStage(tas, c, n - 1);
    }
  }

  /** Observing one association succeeds when it observes cleanly, and
      then yields its resource and its extracted details. */
  lemma ObserveOneSpec(tas: seq<TemplateAssociation>, c: Collaborators, i: nat)
    requires i < |tas|
    ensures ObserveOne(tas, c, i).Ok? <==> ObservesCleanly(c, i)
    ensures ObserveOne(tas, c, i).Ok? ==>
              ObserveOne(tas, c, i).value ==
              Observation(ComposedResource(TemplateName(tas[i].template), ReadyVerdict(c, i)), Extracted(c, i))
  {
  }

  lemma {:induction false} ObserveAllSucceedsIff(tas: seq<TemplateAssociation>, c: Collaborators, n: nat)
    requires n <= |tas|
    ensures ObserveAll(tas, c, n).Ok? <==> forall i :: 0 <= i < n ==> ObservesCleanly(c, i)
  {
    if n > 0 {
      ObserveAllSucceedsIff(tas, c, n - 1);
      ObserveOneSpec(tas, c, n - 1);
    }
  }

  lemma {:induction false} ObserveAllComposed(tas: seq<TemplateAssociation>, c: Collaborators, n: nat)
    requires n <= |tas| && ObserveAll(tas, c, n).Ok?
    ensures |ObserveAll(tas, c, n).value.composed| == n
    ensures forall i :: 0 <= i < n ==>
              ObservesCleanly(c, i) &&
              ObserveAll(tas, c, n).value.composed[i] == ComposedResource(TemplateName(tas[i].template), ReadyVerdict(c, i))
  {
    if n > 0 {
      ObserveAllComposed(tas, c, n - 1);
      ObserveOneSpec(tas, c, n - 1);
    }
  }

  lemma {:induction false} ObserveAllDetailKeys(tas: seq<TemplateAssociation>, c: Collaborators, n: nat)
    requires n <= |tas| && ObserveAll(tas, c, n).Ok?
    ensures forall k :: k in ObserveAll(tas, c, n).value.details <==> exists i :: 0 <= i < n && k in Extracted(c, i)
  {
    if n > 0 {
      ObserveAllDetailKeys(tas, c, n - 1);
      ObserveOneSpec(tas, c, n - 1);
      forall k | exists i :: 0 <= i < n && k in Extracted(c, i)
        ensures k in ObserveAll(tas, c, n).value.details
      {
        var i :| 0 <= i < n && k in Extracted(c, i);
        if i < n - 1 {
          assert k in ObserveAll(tas, c, n - 1).value.details;
        }
      }
    }
  }

  lemma {:induction false} ObserveAllLaterWins(tas: seq<TemplateAssociation>, c: Collaborators, n: nat, i: nat, k: string)
    requires i < n <= |tas| && ObserveAll(tas, c, n).Ok?
    requires k in Extracted(c, i)
    requires forall j :: i < j < n ==> k !in Extracted(c, j)
    ensures k in ObserveAll(tas, c, n).value.details
    ensures ObserveAll(tas, c, n).value.details[k] == Extracted(c, i)[k]
  {
    ObserveOneSpec(tas, c, n - 1);
    if i < n - 1 {
      ObserveAllLaterWins(tas, c, n - 1, i, k);
    }
  }

  lemma {:induction false} WarningsExactlyForFailedRenders(tas: seq<TemplateAssociation>, c: Collaborators, n: nat)
    requires n <= |tas|
    ensures Warnings(tas, c, n) == [] <==> forall i :: 0 <= i < n ==> c.renderComposed(i).err.None?
    ensures forall i :: 0 <= i < n && c.renderComposed(i).err.Some? ==>
              RenderWarning(tas, i, c.renderComposed(i).err.value) in Warnings(tas, c, n)
    ensures forall w :: w in Warnings(tas, c, n) ==>
              exists i :: 0 <= i < n && c.renderComposed(i).err.Some? && w == RenderWarning(tas, i, c.renderComposed(i).err.value)
  {
    if n > 0 {
      WarningsExactlyForFailedRenders(tas, c, n - 1);
      var r := c.renderComposed(n - 1);
      assert Warnings(tas, c, n) == Warnings(tas, c, n - 1) + (if r.err.Some? then [RenderWarning(tas, n - 1, r.err.value)] else []);
    }
  }

  /** The indices among the first n whose resource failed to render. */
  function FailedRenders(c: Collaborators, n: nat): set<nat> {
    set i: nat | i < n && RenderFailed(c, i)
  }

  /** There is exactly one warning per failed render. */
  lemma {:induction false} WarningsCount(tas: seq<TemplateAssociation>, c: Collaborators, n: nat)
    requires n <= |tas|
    ensures |Warnings(tas, c, n)| == |FailedRenders(c, n)|
  {
    if n > 0 {
      WarningsCount(tas, c, n - 1);
      if RenderFailed(c, n - 1) {
        assert FailedRenders(c, n) == FailedRenders(c, n - 1) + {n - 1};
      } else {
        assert FailedRenders(c, n) == FailedRenders(c, n - 1);
      }
    }
  }

  /** The warnings of two failed renders come in association order. */
  lemma {:induction false} WarningsInOrder(tas: seq<TemplateAssociation>, c: Collaborators, n: nat, i: nat, j: nat)
    requires n <= |tas|
    requires i < j < n && RenderFailed(c, i) && RenderFailed(c, j)
    ensures exists a, b :: 0 <= a < b < |Warnings(tas, c, n)| &&
              Warnings(tas, c, n)[a] == RenderWarning(tas, i, c.renderComposed(i).err.value) &&
              Warnings(tas, c, n)[b] == RenderWarning(tas, j, c.renderComposed(j).err.value)
  {
    var prev := Warnings(tas, c, n - 1);
    var w := Warnings(tas, c, n);
    var wi := RenderWarning(tas, i, c.renderComposed(i).err.value);
    var wj := RenderWarning(tas, j, c.renderComposed(j).err.value);
    assert prev <= w;
    if j == n - 1 {
      WarningsExactlyForFailedRenders(tas, c, n - 1);
      var a :| 0 <= a < |prev| && prev[a] == wi;
      assert w == prev + [wj];
      assert w[a] == wi && w[|w| - 1] == wj;
    } else {
      WarningsInOrder(tas, c, n - 1, i, j);
      var a, b :| 0 <= a < b < |prev| && prev[a] == wi && prev[b] == wj;
      assert w[a] == wi && w[b] == wj;
    }
  }

  /** A failed composition returns an empty result and an error naming the
      stage that failed. */
  lemma ComposeFailsWithEmptyResult(ts: seq<ComposedTemplate>, c: Collaborators)
    ensures ComposeSpec(ts, c).err.Some? ==>
              ComposeSpec(ts, c).result == EmptyResult && ComposeStageError(ComposeSpec(ts, c).err.value)
  {
    if c.inline(ts).Ok? && c.associate(c.inline(ts).value).Ok? {
      var tas := c.associate(c.inline(ts).value).value;
      ObserveAllErrorStage(tas, c, |tas|);
    }
  }

  /** Each fatal stage reports its own error with its own marker, in stage
      order: inlining, association, the reference update, then (once every
      rendered resource is applied and observed) the composite apply. */
  lemma ComposeStagePrecedence(ts: seq<ComposedTemplate>, c: Collaborators)
    ensures c.inline(ts).Err? ==> ComposeSpec(ts, c).err == Some(Wrap(c.inline(ts).error, Inline))
    ensures c.inline(ts).Ok? && c.associate(c.inline(ts).value).Err? ==>
              ComposeSpec(ts, c).err == Some(Wrap(c.associate(c.inline(ts).value).error, Associate))
    ensures c.inline(ts).Ok? && c.associate(c.inline(ts).value).Ok? && c.update.Some? ==>
              ComposeSpec(ts, c).err == Some(Wrap(c.update.value, Update))
    ensures c.inline(ts).Ok? && c.associate(c.inline(ts).value).Ok? && c.update.None? &&
            (forall i :: 0 <= i < |c.associate(c.inline(ts).value).value| ==>
               (RenderFailed(c, i) || c.apply(i).None?) && ObservesCleanly(c, i)) &&
            c.applyComposite.Some? ==>
              ComposeSpec(ts, c).err == Some(Wrap(c.applyComposite.value, Update))
  {
    if c.inline(ts).Ok? && c.associate(c.inline(ts).value).Ok? {
      var tas := c.associate(c.inline(ts).value).value;
      ObserveAllSucceedsIff(tas, c, |tas|);
    }
  }

  /** A composition succeeds exactly when every fatal stage succeeds for
      every association; composed-resource render failures do not count. */
  lemma ComposeSucceedsIff(ts: seq<ComposedTemplate>, c: Collaborators)
    ensures ComposeSpec(ts, c).err.None? <==> StagesSucceed(ts, c)
  {
    if c.inline(ts).Ok? && c.associate(c.inline(ts).value).Ok? {
      var tas := c.associate(c.inline(ts).value).value;
      ObserveAllSucceedsIff(tas, c, |tas|);
    }
  }

  /** A failure to render a composed resource never makes composition fail:
      a composition that succeeds still succeeds when more resources fail to
      render. */
  lemma RenderFailuresAreNotFatal(ts: seq<ComposedTemplate>, c: Collaborators, r: nat -> Rendered)
    requires forall i: nat :: c.renderComposed(i).err.Some? ==> r(i).err.Some?
    ensures ComposeSpec(ts, c).err.None? ==> ComposeSpec(ts, c.(renderComposed := r)).err.None?
  {
    var c' := c.(renderComposed := r);
    ComposeSucceedsIff(ts, c);
    ComposeSucceedsIff(ts, c');
    if StagesSucceed(ts, c) {
      forall i: nat
        ensures (RenderFailed(c', i) || c'.apply(i).None?) && ObservesCleanly(c', i)
                  <== (RenderFailed(c, i) || c.apply(i).None?) && ObservesCleanly(c, i)
      {
      }
    }
  }

  /** Collaborators d answer as c does, except possibly for the apply,
      composite-render, fetch, extraction and readiness answers at index k. */
  ghost predicate AgreeExceptAt(c: Collaborators, d: Collaborators, k: nat) {
    d.inline == c.inline && d.associate == c.associate && d.renderComposed == c.renderComposed &&
    d.update == c.update && d.applyComposite == c.applyComposite &&
    (forall i: nat :: i != k ==> d.apply(i) == c.apply(i)) &&
    (forall i: nat :: i != k ==> d.renderComposite(i) == c.renderComposite(i)) &&
    (forall i: nat :: i != k ==> d.fetch(i) == c.fetch(i)) &&
    (forall i: nat :: i != k ==> d.ready(i) == c.ready(i)) &&
    (forall i: nat, x: Details :: i != k ==> d.extract(i, x) == c.extract(i, x))
  }

  lemma {:induction false} FirstApplyFailureSkips(c: Collaborators, d: Collaborators, k: nat, from: nat, n: nat)
    requires from <= n && AgreeExceptAt(c, d, k) && RenderFailed(c, k)
    ensures FirstApplyFailure(d, from, n) == FirstApplyFailure(c, from, n)
    decreases n - from
  {
    if from < n {
      FirstApplyFailureSkips(c, d, k, from + 1, n);
    }
  }

  lemma {:induction false} ObserveAllSkips(tas: seq<TemplateAssociation>, c: Collaborators, d: Collaborators, k: nat, n: nat)
    requires n <= |tas| && AgreeExceptAt(c, d, k) && RenderFailed(c, k)
    ensures ObserveAll(tas, d, n) == ObserveAll(tas, c, n)
  {
    if n > 0 {
      ObserveAllSkips(tas, c, d, k, n - 1);
      assert ObserveOne(tas, d, n - 1) == ObserveOne(tas, c, n - 1);
    }
  }

  lemma {:induction false} WarningsSkips(tas: seq<TemplateAssociation>, c: Collaborators, d: Collaborators, k: nat, n: nat)
    requires n <= |tas| && AgreeExceptAt(c, d, k)
    ensures Warnings(tas, d, n) == Warnings(tas, c, n)
  {
    if n > 0 {
      WarningsSkips(tas, c, d, k, n - 1);
    }
  }

  /** A composed resource that fails to render is skipped: its apply,
      composite-render, fetch, extraction and readiness answers do not
      change the outcome. */
  lemma RenderFailureSkipsResource(ts: seq<ComposedTemplate>, c: Collaborators, d: Collaborators, k: nat)
    requires AgreeExceptAt(c, d, k) && RenderFailed(c, k)
    ensures ComposeSpec(ts, d) == ComposeSpec(ts, c)
  {
    if c.inline(ts).Ok? && c.associate(c.inline(ts).value).Ok? {
      var tas := c.associate(c.inline(ts).value).value;
      FirstApplyFailureSkips(c, d, k, 0, |tas|);
      ObserveAllSkips(tas, c, d, k, |tas|);
      WarningsSkips(tas, c, d, k, |tas|);
      assert RenderedRefs(d, |tas|) == RenderedRefs(c, |tas|);
    }
  }

  /** On success there is one composed resource per association, named after
      its template and ready as its readiness check says, and one warning per
      composed resource that failed to render. */
  lemma ComposeResultShape(ts: seq<ComposedTemplate>, c: Collaborators)
    requires StagesSucceed(ts, c)
    ensures var tas := c.associate(c.inline(ts).value).value;
            var res := ComposeSpec(ts, c).result;
            |res.composed| == |tas| &&
            (forall i :: 0 <= i < |tas| ==>
               (RenderFailed(c, i) || c.ready(i).Ok?) &&
               res.composed[i] == ComposedResource(TemplateName(tas[i].template),
                                                   if RenderFailed(c, i) then false else c.ready(i).value)) &&
            (forall i :: 0 <= i < |tas| && c.renderComposed(i).err.Some? ==>
               RenderWarning(tas, i, c.renderComposed(i).err.value) in res.events) &&
            (forall w :: w in res.events ==>
               exists i :: 0 <= i < |tas| && c.renderComposed(i).err.Some? && w == RenderWarning(tas, i, c.renderComposed(i).err.value))
  {
    var tas := c.associate(c.inline(ts).value).value;
    ComposeSucceedsIff(ts, c);
    ObserveAllSucceedsIff(tas, c, |tas|);
    ObserveAllComposed(tas, c, |tas|);
    WarningsExactlyForFailedRenders(tas, c, |tas|);
  }

  /** On success there are exactly as many warnings as failed renders, and
      the warnings of two failed renders come in association order. */
  lemma ComposeWarnings(ts: seq<ComposedTemplate>, c: Collaborators)
    requires StagesSucceed(ts, c)
    ensures var tas := c.associate(c.inline(ts).value).value;
            var res := ComposeSpec(ts, c).result;
            |res.events| == |FailedRenders(c, |tas|)| &&
            (forall i, j :: 0 <= i < j < |tas| && RenderFailed(c, i) && RenderFailed(c, j) ==>
               exists a, b :: 0 <= a < b < |res.events| &&
                 res.events[a] == RenderWarning(tas, i, c.renderComposed(i).err.value) &&
                 res.events[b] == RenderWarning(tas, j, c.renderComposed(j).err.value))
  {
    var tas := c.associate(c.inline(ts).value).value;
    ComposeSucceedsIff(ts, c);
    ObserveAllSucceedsIff(tas, c, |tas|);
    assert ComposeSpec(ts, c).result.events == Warnings(tas, c, |tas|);
    WarningsCount(tas, c, |tas|);
    forall i, j | 0 <= i < j < |tas| && RenderFailed(c, i) && RenderFailed(c, j)
      ensures exists a, b :: 0 <= a < b < |Warnings(tas, c, |tas|)| &&
                Warnings(tas, c, |tas|)[a] == RenderWarning(tas, i, c.renderComposed(i).err.value) &&
                Warnings(tas, c, |tas|)[b] == RenderWarning(tas, j, c.renderComposed(j).err.value)
    {
      WarningsInOrder(tas, c, |tas|, i, j);
    }
  }

  /** On success the connection details hold every key some composed
      resource yielded, each with the value of the last resource that
      yielded it. */
  lemma ComposeMergesDetails(ts: seq<ComposedTemplate>, c: Collaborators, i: nat, k: string)
    requires StagesSucceed(ts, c)
    requires i < |c.associate(c.inline(ts).value).value|
    requires k in Extracted(c, i)
    requires forall j :: i < j < |c.associate(c.inline(ts).value).value| ==> k !in Extracted(c, j)
    ensures k in ComposeSpec(ts, c).result.connectionDetails
    ensures ComposeSpec(ts, c).result.connectionDetails[k] == Extracted(c, i)[k]
  {
    var tas := c.associate(c.inline(ts).value).value;
    ComposeSucceedsIff(ts, c);
    ObserveAllSucceedsIff(tas, c, |tas|);
    ObserveAllLaterWins(tas, c, |tas|, i, k);
  }

  lemma ComposeDetailKeys(ts: seq<ComposedTemplate>, c: Collaborators)
    requires StagesSucceed(ts, c)
    ensures forall k :: k in ComposeSpec(ts, c).result.connectionDetails <==>
              exists i :: 0 <= i < |c.associate(c.inline(ts).value).value| && k in Extracted(c, i)
  {
    var tas := c.associate(c.inline(ts).value).value;
    ComposeSucceedsIff(ts, c);
    ObserveAllSucceedsIff(tas, c, |tas|);
    ObserveAllDetailKeys(tas, c, |tas|);
  }

  /** Once templates are associated the composite holds one reference per
      association, that of the resource rendered for it, even when a later
      stage fails. */
  lemma ComposeRecordsReferences(ts: seq<ComposedTemplate>, c: Collaborators)
    ensures ComposeSpec(ts, c).refs.Some? <==> c.inline(ts).Ok? && c.associate(c.inline(ts).value).Ok?
    ensures ComposeSpec(ts, c).refs.Some? ==>
              |ComposeSpec(ts, c).refs.value| == |c.associate(c.inline(ts).value).value| &&
              forall i :: 0 <= i < |ComposeSpec(ts, c).refs.value| ==>
                ComposeSpec(ts, c).refs.value[i] == c.renderComposed(i).ref
  {
  }

  /** The first rendered composed resource that fails to apply is the one
      reported. */
  lemma ComposeReportsFirstApplyFailure(ts: seq<ComposedTemplate>, c: Collaborators, k: nat)
    requires c.inline(ts).Ok? && c.associate(c.inline(ts).value).Ok? && c.update.None?
    requires k < |c.associate(c.inline(ts).value).value| && !RenderFailed(c, k) && c.apply(k).Some?
    requires forall j :: 0 <= j < k ==> RenderFailed(c, j) || c.apply(j).None?
    ensures ComposeSpec(ts, c).err == Some(Wrap(c.apply(k).value, Apply))
  {
  }

  /** The first composed resource that fails to be observed is the one
      reported, once every resource has been applied. */
  lemma ComposeReportsFirstObservationFailure(ts: seq<ComposedTemplate>, c: Collaborators, k: nat)
    requires c.inline(ts).Ok? && c.associate(c.inline(ts).value).Ok? && c.update.None?
    requires forall j :: 0 <= j < |c.associate(c.inline(ts).value).value| ==> RenderFailed(c, j) || c.apply(j).None?
    requires k < |c.associate(c.inline(ts).value).value| && !ObservesCleanly(c, k)
    requires forall j :: 0 <= j < k ==> ObservesCleanly(c, j)
    ensures ComposeSpec(ts, c).err == Some(ObserveOne(c.associate(c.inline(ts).value).value, c, k).error)
  {
    var tas := c.associate(c.inline(ts).value).value;
    ObserveAllSucceedsIff(tas, c, k);
    ObserveAllStops(tas, c, k, |tas|);
  }

  // The composition cases: one association for the template
  // "cool-resource", or none; every collaborator not set by a case answers
  // as in the successful one.

  const Boom := Cause("boom")
  const CannotGet := Cause("cannot get object: boom")
  const CoolAssociation := TemplateAssociation(ComposedTemplate(Some("cool-resource"), Wellformed("")), EmptyRef)
  const SecretDetails: Details := map["a" := [0x62]]

  const Healthy := Collaborators(
    ts => Ok(ts), ts => Ok([CoolAssociation]), i => Rendered(EmptyRef, None), None, i => None,
    i => None, i => Ok(map[]), (i, d) => Ok(SecretDetails), i => Ok(true), None)

  lemma ComposedTemplatesErrorCase(ts: seq<ComposedTemplate>)
    ensures var c := Healthy.(inline := ts => Err(UndefinedPatchSet("nonexistent-patchset")));
            ComposeSpec(ts, c).result == EmptyResult &&
            ComposeSpec(ts, c).err == Some(Wrap(UndefinedPatchSet("nonexistent-patchset"), Inline))
  {
  }

  lemma AssociateTemplatesErrorCase(ts: seq<ComposedTemplate>)
    ensures ComposeSpec(ts, Healthy.(associate := ts => Err(Boom))).err == Some(Wrap(Boom, Associate))
  {
  }

  /** A composed resource that fails to render yields a warning naming it,
      and composition carries on. */
  lemma RenderComposedErrorCase(ts: seq<ComposedTemplate>)
    ensures var c := Healthy.(renderComposed := i => Rendered(EmptyRef, Some(Boom)),
                              extract := (i, d) => Ok(map[]));
            ComposeSpec(ts, c).err.None? &&
            ComposeSpec(ts, c).result == CompositionResult(
              [ComposedResource("cool-resource", false)], map[],
              [Warning(ComposeResources, Wrap(Boom, ResourceName("cool-resource")))])
  {
    var c := Healthy.(renderComposed := i => Rendered(EmptyRef, Some(Boom)),
                      extract := (i, d) => Ok(map[]));
    assert Warnings([CoolAssociation], c, 1) == [Warning(ComposeResources, Wrap(Boom, ResourceName("cool-resource")))];
    assert ObserveOne([CoolAssociation], c, 0) == Ok(Observation(ComposedResource("cool-resource", false), map[]));
    assert ObserveAll([CoolAssociation], c, 0) == Ok(Observed([], map[]));
    assert [] + [ComposedResource("cool-resource", false)] == [ComposedResource("cool-resource", false)];
    assert map[] + Extracted(c, 0) == map[];
    assert ObserveAll([CoolAssociation], c, 1) == Ok(Observed([ComposedResource("cool-resource", false)], map[]));
  }

  lemma UpdateCompositeErrorCase(ts: seq<ComposedTemplate>)
    ensures ComposeSpec(ts, Healthy.(update := Some(Boom))).err == Some(Wrap(Boom, Update))
  {
  }

  lemma ApplyComposedErrorCase(ts: seq<ComposedTemplate>)
    ensures ComposeSpec(ts, Healthy.(apply := i => Some(CannotGet))).err == Some(Wrap(CannotGet, Apply))
  {
    assert FirstApplyFailure(Healthy.(apply := i => Some(CannotGet)), 0, 1) == 0;
  }

  lemma CompositeRenderErrorCase(ts: seq<ComposedTemplate>)
    ensures ComposeSpec(ts, Healthy.(renderComposite := i => Some(Boom))).err == Some(Wrap(Boom, RenderCR))
  {
    assert ObserveAll([CoolAssociation], Healthy.(renderComposite := i => Some(Boom)), 1) == Err(Wrap(Boom, RenderCR));
  }

  lemma FetchConnectionDetailsErrorCase(ts: seq<ComposedTemplate>)
    ensures ComposeSpec(ts, Healthy.(fetch := i => Err(Boom))).err == Some(Wrap(Boom, FetchDetails))
  {
    assert ObserveAll([CoolAssociation], Healthy.(fetch := i => Err(Boom)), 1) == Err(Wrap(Boom, FetchDetails));
  }

  lemma ExtractConnectionDetailsErrorCase(ts: seq<ComposedTemplate>)
    ensures ComposeSpec(ts, Healthy.(extract := (i, d) => Err(Boom))).err == Some(Wrap(Boom, ExtractDetails))
  {
    assert ObserveAll([CoolAssociation], Healthy.(extract := (i, d) => Err(Boom)), 1) == Err(Wrap(Boom, ExtractDetails));
  }

  lemma CheckReadinessErrorCase(ts: seq<ComposedTemplate>)
    ensures ComposeSpec(ts, Healthy.(ready := i => Err(Boom))).err == Some(Wrap(Boom, Readiness))
  {
    assert ObserveAll([CoolAssociation], Healthy.(ready := i => Err(Boom)), 1) == Err(Wrap(Boom, Readiness));
  }

  /** With no associations only the composite itself is applied. */
  lemma CompositeApplyErrorCase(ts: seq<ComposedTemplate>)
    ensures var c := Healthy.(associate := ts => Ok([]), apply := i => Some(CannotGet), applyComposite := Some(CannotGet));
            ComposeSpec(ts, c).err == Some(Wrap(CannotGet, Update))
  {
  }

  lemma SuccessCase(ts: seq<ComposedTemplate>)
    ensures ComposeSpec(ts, Healthy).err.None?
    ensures ComposeSpec(ts, Healthy).result == CompositionResult([ComposedResource("cool-resource", true)], SecretDetails, [])
  {
    assert ObserveOne([CoolAssociation], Healthy, 0) == Ok(Observation(ComposedResource("cool-resource", true), SecretDetails));
    assert ObserveAll([CoolAssociation], Healthy, 0) == Ok(Observed([], map[]));
    assert [] + [ComposedResource("cool-resource", true)] == [ComposedResource("cool-resource", true)];
    assert map[] + SecretDetails == SecretDetails;
    assert ObserveAll([CoolAssociation], Healthy, 1) == Ok(Observed([ComposedResource("cool-resource", true)], SecretDetails));
    assert Warnings([CoolAssociation], Healthy, 1) == [];
  }
}
