/** The per-parent drivers of the indexer: for each project (or each plate of
    each screen) build the parent document, then either print it and its
    children (dry run) or upsert it and send its children in one bulk call. */
module Indexer {
  import opened Values
  import opened ObjectGraph
  import opened Pruning
  import opened Paging
  import opened Documents
  import opened IndexActions
  import opened World

  /** What the indexer does that can be observed from outside. */
  datatype Event =
    | Upsert(index: string, docType: string, id: int, body: Doc) // es.index(...)
    | Bulk(actions: seq<Action>)                                 // helpers.bulk(es, actions)
    | Printed(doc: Doc)                                          // print of a document (dry run)
    | SessionClosed                                              // client.closeSession()

  /** The Elasticsearch client, standard output and the session, seen as one
      ordered record of calls. */
  class Trace {
    var events: seq<Event>

    constructor()
      ensures events == []
    {
      events := [];
    }

    method Emit(e: Event)
      modifies this
      ensures events == old(events) + [e]
    {
      events := events + [e];
    }
  }

  /** How the processing of one parent went. */
  datatype Step<C> =
    | Missing                                   // the project query returned None
    | Unencodable(failure: Failure)             // building the parent document raised
    | Encoded(parentId: int, document: Doc, children: seq<C>, childFailure: Option<Failure>)

  /** The exception a step ends with, which ends the whole run. */
  function StepFailure<C>(step: Step<C>): Option<Failure>
  {
    match step
    case Missing => None
    case Unencodable(f) => Some(f)
    case Encoded(_, _, _, f) => f
  }

  /** Only the last step raised, with `failure`, or none did and `failure`
      is None: the first exception ends a run. */
  ghost predicate FailsAtEnd<C>(steps: seq<Step<C>>, failure: Option<Failure>)
  {
    && (failure.Some? ==> |steps| > 0)
    && forall k :: 0 <= k < |steps| ==> StepFailure(steps[k]) == (if k == |steps| - 1 then failure else None)
  }

  lemma FailsAtEndAppend<C>(a: seq<Step<C>>, b: seq<Step<C>>, failure: Option<Failure>)
    requires FailsAtEnd(a, None) && FailsAtEnd(b, failure)
    ensures FailsAtEnd(a + b, failure)
  {
    forall k | 0 <= k < |a + b| ensures StepFailure((a + b)[k]) == (if k == |a + b| - 1 then failure else None) {
      if k >= |a| {
        assert (a + b)[k] == b[k - |a|];
      }
    }
  }

  function PrintedDocs(docs: seq<Doc>): (r: seq<Event>)
    ensures |r| == |docs|
    ensures forall k :: 0 <= k < |docs| ==> r[k] == Printed(docs[k])
  {
    seq(|docs|, k requires 0 <= k < |docs| => Printed(docs[k]))
  }

  function ImageDocs(docs: seq<ImageDocument>): (r: seq<Doc>)
    ensures |r| == |docs|
    ensures forall k :: 0 <= k < |docs| ==> r[k] == docs[k].document
  {
    seq(|docs|, k requires 0 <= k < |docs| => docs[k].document)
  }

  function WellDocs(docs: seq<WellDocument>): (r: seq<Doc>)
    ensures |r| == |docs|
    ensures forall k :: 0 <= k < |docs| ==> r[k] == docs[k].document
  {
    seq(|docs|, k requires 0 <= k < |docs| => docs[k].document)
  }

  // ---------------------------------------------------------------------------
  // Projects

  /** The project query `conn.getObject("Project", id)`, as a value
      independent of the heap. */
  function ProjectOf(lookup: int -> ModelObject?, id: int): ModelObject?
  {
    lookup(id)
  }

  /** The calls one project makes. */
  function ProjectStepEvents(dryRun: bool, index: string, projectId: int, step: Step<ImageDocument>): seq<Event>
  {
    match step
    case Encoded(parentId, doc, children, _) =>
      if dryRun then [Printed(doc)] + PrintedDocs(ImageDocs(children))
      else [Upsert(index, "project", projectId, doc), Bulk(ImageActions(parentId, index, children))]
    case _ => []
  }

  /** The calls of a run over the projects, in order. */
  function ProjectRunEvents(dryRun: bool, index: string, ids: seq<int>, steps: seq<Step<ImageDocument>>): seq<Event>
    requires |ids| == |steps|
  {
    if ids == [] then []
    else
      ProjectRunEvents(dryRun, index, ids[..|ids| - 1], steps[..|steps| - 1])
      + ProjectStepEvents(dryRun, index, ids[|ids| - 1], steps[|steps| - 1])
  }

  /** The image documents of an encoded project and the exception that ends
      them: the failure of `find_images`, or one document per (image, dataset
      link) up to the first image whose dataset links are unloaded. */
  ghost predicate ProjectChildrenAgree(children: seq<ImageDocument>, failure: Option<Failure>, p: ModelObject,
                                       countsOf: int -> map<int, int>, fetch: (int, nat) -> seq<ModelObject>, bound: nat,
                                       encode: StructuralEncoder)
    requires AllShortBeyond(fetch, bound)
  {
    var (images, imagesFailure) := ProjectImages(p, countsOf, fetch, bound);
    if imagesFailure.Some? then children == [] && failure == imagesFailure
    else
      var k := FirstUnreadable(images);
      && Encodes(children, DocumentRefs(images[..k]), encode)
      && failure == (if k < |images| then Some(UnloadedEntity) else None)
  }

  /** `step` is what processing the project `p` (None when null) produces,
      given whether its details were loaded when it was reached. */
  ghost predicate ProjectStepAgrees(step: Step<ImageDocument>, p: ModelObject?, detailsThen: bool,
                                    countsOf: int -> map<int, int>, fetch: (int, nat) -> seq<ModelObject>, bound: nat,
                                    encode: StructuralEncoder)
    requires AllShortBeyond(fetch, bound)
  {
    match step
    case Missing => p == null
    case Unencodable(f) => p != null && ContainerFailure(p, detailsThen) == Some(f)
    case Encoded(parentId, doc, children, cf) =>
      && p != null && ContainerFailure(p, detailsThen).None?
      && parentId == p.id && doc == encode(p, {})
      && ProjectChildrenAgree(children, cf, p, countsOf, fetch, bound, encode)
  }

  /** `document.image_documents` of a project: its images, then their
      documents. */
  method ProjectChildren(p: ModelObject, countsOf: int -> map<int, int>,
                         fetch: (int, nat) -> seq<ModelObject>, ghost bound: nat,
                         encode: StructuralEncoder, ghost world: set<ModelObject>)
    returns (docs: seq<ImageDocument>, failure: Option<Failure>)
    requires AllShortBeyond(fetch, bound) && Closed(world) && Typed(world) && Serves(fetch, world, Image) && p in world
    modifies Parts(world)
    ensures ProjectChildrenAgree(docs, failure, p, countsOf, fetch, bound, encode)
  {
    var queries, images, imagesFailure := Images(p, countsOf, fetch, bound);
    if imagesFailure.Some? {
      return [], imagesFailure;
    }
    ProjectImagesWithin(p, countsOf, fetch, bound, world);
    forall i | 0 <= i < |images| ensures ImageTargets(images[i]) <= world {
      ImageTargetsWithin(images[i], world);
    }
    UnionWithin(images, ImageTargets, world);
    ImagesFree(images, world);
    docs, failure := ImageDocuments(images, encode);
  }

  /** The calls made for an encoded project: print it and its image
      documents, or upsert it and bulk-index its image actions. */
  method EmitProject(trace: Trace, dryRun: bool, index: string, projectId: int, parentId: int,
                     doc: Doc, docs: seq<ImageDocument>, ghost childFailure: Option<Failure>)
    modifies trace
    ensures trace.events == old(trace.events) + ProjectStepEvents(dryRun, index, projectId, Encoded(parentId, doc, docs, childFailure))
  {
    if dryRun {
      trace.Emit(Printed(doc));
      for k := 0 to |docs|
        invariant trace.events == old(trace.events) + [Printed(doc)] + PrintedDocs(ImageDocs(docs[..k]))
      {
        assert ImageDocs(docs[..k + 1]) == ImageDocs(docs[..k]) + [docs[k].document];
        trace.Emit(Printed(docs[k].document));
      }
      assert docs[..|docs|] == docs;
    } else {
      trace.Emit(Upsert(index, "project", projectId, doc));
      trace.Emit(Bulk(ImageActions(parentId, index, docs)));
    }
  }

  /** One iteration of `index_projects`: load the project; skip it when the
      query returns None; build its document; print it and its image
      documents, or upsert it and bulk-index its image actions. */
  method IndexProject(trace: Trace, dryRun: bool, index: string, projectId: int,
                      lookup: int -> ModelObject?, countsOf: int -> map<int, int>,
                      fetch: (int, nat) -> seq<ModelObject>, ghost bound: nat,
                      encode: StructuralEncoder, ghost world: set<ModelObject>)
    returns (ghost step: Step<ImageDocument>, ghost detailsThen: bool, failure: Option<Failure>)
    requires AllShortBeyond(fetch, bound) && Closed(world) && Typed(world) && Serves(fetch, world, Image)
    requires ProjectOf(lookup, projectId) != null ==>
      ProjectOf(lookup, projectId) in world && ProjectOf(lookup, projectId).kind == Project && DetailsTyped(ProjectOf(lookup, projectId))
    modifies trace, Parts(world)
    ensures ProjectOf(lookup, projectId) != null ==> detailsThen == old(ProjectOf(lookup, projectId).detailsLoaded)
    ensures ProjectStepAgrees(step, ProjectOf(lookup, projectId), detailsThen, countsOf, fetch, bound, encode)
    ensures failure == StepFailure(step)
    ensures trace.events == old(trace.events) + ProjectStepEvents(dryRun, index, projectId, step)
  {
    var p := ProjectOf(lookup, projectId);
    if p == null {
      return Missing, false, None;
    }
    detailsThen := p.detailsLoaded;
    ProjectTargetsWithin(p, world);
    ProjectTargetsFree(p, world);
    var r := EncodeProject(p, encode);
    if r.Err? {
      return Unencodable(r.error), detailsThen, Some(r.error);
    }
    var docs;
    docs, failure := ProjectChildren(p, countsOf, fetch, bound, encode, world);
    step := Encoded(p.id, r.value, docs, failure);
    EmitProject(trace, dryRun, index, projectId, p.id, r.value, docs, failure);
  }

  /** Appending to the trace in two steps is appending the concatenation. */
  lemma AppendAssoc<T>(a: seq<T>, b: seq<T>, c: seq<T>)
    ensures (a + b) + c == a + (b + c)
  {
  }

  lemma ProjectRunStep(dryRun: bool, index: string, ids: seq<int>, steps: seq<Step<ImageDocument>>, step: Step<ImageDocument>, i: nat)
    requires i < |ids| && |steps| == i
    ensures ProjectRunEvents(dryRun, index, ids[..i + 1], steps + [step])
      == ProjectRunEvents(dryRun, index, ids[..i], steps) + ProjectStepEvents(dryRun, index, ids[i], step)
  {
    assert ids[..i + 1][..i] == ids[..i];
    assert (steps + [step])[..i] == steps;
  }

  /** Step `k` is what processing the `k`-th project id produces. */
  ghost predicate ProjectStepsAgree(steps: seq<Step<ImageDocument>>, ids: seq<int>, lookup: int -> ModelObject?, detailsThen: seq<bool>,
                                    countsOf: int -> map<int, int>, fetch: (int, nat) -> seq<ModelObject>, bound: nat,
                                    encode: StructuralEncoder)
    requires AllShortBeyond(fetch, bound)
  {
    && |steps| <= |ids| && |detailsThen| == |steps|
    && forall k {:trigger ProjectStepAgrees(steps[k], ProjectOf(lookup, ids[k]), detailsThen[k], countsOf, fetch, bound, encode)} ::
         0 <= k < |steps| ==> ProjectStepAgrees(steps[k], ProjectOf(lookup, ids[k]), detailsThen[k], countsOf, fetch, bound, encode)
  }

  lemma ProjectStepsAgreeSnoc(steps: seq<Step<ImageDocument>>, ids: seq<int>, lookup: int -> ModelObject?, detailsThen: seq<bool>,
                              countsOf: int -> map<int, int>, fetch: (int, nat) -> seq<ModelObject>, bound: nat,
                              encode: StructuralEncoder, step: Step<ImageDocument>, d: bool)
    requires AllShortBeyond(fetch, bound)
    requires ProjectStepsAgree(steps, ids, lookup, detailsThen, countsOf, fetch, bound, encode)
    requires |steps| < |ids|
    requires ProjectStepAgrees(step, ProjectOf(lookup, ids[|steps|]), d, countsOf, fetch, bound, encode)
    ensures ProjectStepsAgree(steps + [step], ids, lookup, detailsThen + [d], countsOf, fetch, bound, encode)
  {
  }

  /** `index_projects`: the projects in the given order; the first exception
      ends the run. */
  method IndexProjects(trace: Trace, dryRun: bool, index: string, projectIds: seq<int>,
                       lookup: int -> ModelObject?, countsOf: int -> map<int, int>,
                       fetch: (int, nat) -> seq<ModelObject>, ghost bound: nat,
                       encode: StructuralEncoder, ghost world: set<ModelObject>)
    returns (ghost steps: seq<Step<ImageDocument>>, ghost detailsThen: seq<bool>, failure: Option<Failure>)
    requires AllShortBeyond(fetch, bound) && Closed(world) && Typed(world) && Serves(fetch, world, Image)
    requires forall id :: ProjectOf(lookup, id) != null ==>
      ProjectOf(lookup, id) in world && ProjectOf(lookup, id).kind == Project && DetailsTyped(ProjectOf(lookup, id))
    modifies trace, Parts(world)
    ensures |steps| <= |projectIds| && |detailsThen| == |steps|
    ensures ProjectStepsAgree(steps, projectIds, lookup, detailsThen, countsOf, fetch, bound, encode)
    ensures forall k :: 0 <= k < |steps| && ProjectOf(lookup, projectIds[k]) != null ==>
      detailsThen[k] == old(ProjectOf(lookup, projectIds[k]).detailsLoaded)
    ensures failure.None? ==> |steps| == |projectIds|
    ensures FailsAtEnd(steps, failure)
    ensures trace.events == old(trace.events) + ProjectRunEvents(dryRun, index, projectIds[..|steps|], steps)
  {
    steps := [];
    detailsThen := [];
    failure := None;
    for i := 0 to |projectIds|
      invariant |steps| == i && |detailsThen| == i
      invariant ProjectStepsAgree(steps, projectIds, lookup, detailsThen, countsOf, fetch, bound, encode)
      invariant forall k :: 0 <= k < i && ProjectOf(lookup, projectIds[k]) != null ==> detailsThen[k] == ProjectOf(lookup, projectIds[k]).detailsLoaded
      invariant FailsAtEnd(steps, None)
      invariant trace.events == old(trace.events) + ProjectRunEvents(dryRun, index, projectIds[..i], steps)
    {
      var f;
      steps, detailsThen, f := IndexNextProject(trace, dryRun, index, projectIds, i, lookup, countsOf, fetch, bound, encode, world,
                                                steps, detailsThen, old(trace.events));
      if f.Some? {
        failure := f;
        break;
      }
    }
    assert projectIds[..|projectIds|] == projectIds;
    forall k | 0 <= k < |steps| && ProjectOf(lookup, projectIds[k]) != null
      ensures detailsThen[k] == old(ProjectOf(lookup, projectIds[k]).detailsLoaded)
    {
      assert Container(ProjectOf(lookup, projectIds[k]));
    }
  }

  /** The next project of `index_projects`, after `steps`. */
  method IndexNextProject(trace: Trace, dryRun: bool, index: string, projectIds: seq<int>, i: nat,
                          lookup: int -> ModelObject?, countsOf: int -> map<int, int>,
                          fetch: (int, nat) -> seq<ModelObject>, ghost bound: nat,
                          encode: StructuralEncoder, ghost world: set<ModelObject>,
                          ghost steps: seq<Step<ImageDocument>>, ghost detailsThen: seq<bool>, ghost start: seq<Event>)
    returns (ghost steps': seq<Step<ImageDocument>>, ghost detailsThen': seq<bool>, failure: Option<Failure>)
    requires AllShortBeyond(fetch, bound) && Closed(world) && Typed(world) && Serves(fetch, world, Image)
    requires forall id :: ProjectOf(lookup, id) != null ==>
      ProjectOf(lookup, id) in world && ProjectOf(lookup, id).kind == Project && DetailsTyped(ProjectOf(lookup, id))
    requires i == |steps| < |projectIds| && FailsAtEnd(steps, None)
    requires ProjectStepsAgree(steps, projectIds, lookup, detailsThen, countsOf, fetch, bound, encode)
    requires forall k :: 0 <= k < i && ProjectOf(lookup, projectIds[k]) != null ==> detailsThen[k] == ProjectOf(lookup, projectIds[k]).detailsLoaded
    requires trace.events == start + ProjectRunEvents(dryRun, index, projectIds[..i], steps)
    modifies trace, Parts(world)
    ensures |steps'| == i + 1 && |detailsThen'| == i + 1 && FailsAtEnd(steps', failure)
    ensures ProjectStepsAgree(steps', projectIds, lookup, detailsThen', countsOf, fetch, bound, encode)
    ensures forall k :: 0 <= k < i + 1 && ProjectOf(lookup, projectIds[k]) != null ==> detailsThen'[k] == ProjectOf(lookup, projectIds[k]).detailsLoaded
    ensures trace.events == start + ProjectRunEvents(dryRun, index, projectIds[..i + 1], steps')
  {
    ghost var step, d;
    step, d, failure := IndexProject(trace, dryRun, index, projectIds[i], lookup, countsOf, fetch, bound, encode, world);
    ProjectRunStep(dryRun, index, projectIds, steps, step, i);
    AppendAssoc(start, ProjectRunEvents(dryRun, index, projectIds[..i], steps),
                ProjectStepEvents(dryRun, index, projectIds[i], step));
    ProjectStepsAgreeSnoc(steps, projectIds, lookup, detailsThen, countsOf, fetch, bound, encode, step, d);
    FailsAtEndAppend(steps, [step], failure);
    steps', detailsThen' := steps + [step], detailsThen + [d];
    forall k | 0 <= k < i + 1 && ProjectOf(lookup, projectIds[k]) != null
      ensures detailsThen'[k] == ProjectOf(lookup, projectIds[k]).detailsLoaded
    {
      assert ProjectOf(lookup, projectIds[k]) !in Parts(world);
    }
  }

  // ---------------------------------------------------------------------------
  // Screens

  /** The calls one plate makes. */
  function PlateStepEvents(dryRun: bool, index: string, step: Step<WellDocument>): seq<Event>
  {
    match step
    case Encoded(plateId, doc, children, _) =>
      if dryRun then [Printed(doc)] + PrintedDocs(WellDocs(children))
      else [Upsert(index, "plate", plateId, doc), Bulk(WellActions(plateId, index, children))]
    case _ => []
  }

  /** The calls of a run over a list of plates, in order. */
  function PlateRunEvents(dryRun: bool, index: string, steps: seq<Step<WellDocument>>): seq<Event>
  {
    if steps == [] then []
    else PlateRunEvents(dryRun, index, steps[..|steps| - 1]) + PlateStepEvents(dryRun, index, steps[|steps| - 1])
  }

  /** The well documents of an encoded plate and the exception that ends
      them: one document per well up to the first well whose pruning pass
      raises. */
  ghost predicate PlateChildrenAgree(children: seq<WellDocument>, failure: Option<Failure>, plate: ModelObject,
                                     fetch: (int, nat) -> seq<ModelObject>, bound: nat, encode: StructuralEncoder)
    requires AllShortBeyond(fetch, bound)
  {
    var wells := PlateWells(plate, fetch, bound);
    var k := FirstFailingWell(wells);
    && |children| == k
    && (forall j :: 0 <= j < k ==> children[j] == WellDocument(wells[j], encode(wells[j], {})))
    && failure == (if k < |wells| then WellOutcome(wells[k]).1 else None)
  }

  /** `step` is what processing `plate` produces, given whether its details
      were loaded when it was reached. */
  ghost predicate PlateStepAgrees(step: Step<WellDocument>, plate: ModelObject, detailsThen: bool,
                                  fetch: (int, nat) -> seq<ModelObject>, bound: nat, encode: StructuralEncoder)
    requires AllShortBeyond(fetch, bound)
  {
    match step
    case Missing => false
    case Unencodable(f) => ContainerFailure(plate, detailsThen) == Some(f)
    case Encoded(plateId, doc, children, cf) =>
      && ContainerFailure(plate, detailsThen).None?
      && plateId == plate.id && doc == encode(plate, {})
      && PlateChildrenAgree(children, cf, plate, fetch, bound, encode)
  }

  /** `document.well_documents` of a plate: its wells, then their documents. */
  method PlateChildren(plate: ModelObject, fetch: (int, nat) -> seq<ModelObject>, ghost bound: nat,
                       encode: StructuralEncoder, ghost world: set<ModelObject>)
    returns (docs: seq<WellDocument>, failure: Option<Failure>)
    requires AllShortBeyond(fetch, bound) && Closed(world) && Typed(world) && Serves(fetch, world, Well) && plate in world
    modifies Parts(world)
    ensures PlateChildrenAgree(docs, failure, plate, fetch, bound, encode)
  {
    var queries, wells := Wells(plate, fetch, bound);
    PlateWellsWithin(plate, fetch, bound, world);
    forall i | 0 <= i < |wells| ensures WellTargets(wells[i]) <= world {
      WellTargetsWithin(wells[i], world);
    }
    UnionWithin(wells, WellTargets, world);
    PlateWellsFree(plate, fetch, bound, world);
    WellsFree(wells, world);
    docs, failure := WellDocuments(wells, encode);
  }

  /** The calls made for an encoded plate: print it and its well documents,
      or upsert it and bulk-index its well actions. */
  method EmitPlate(trace: Trace, dryRun: bool, index: string, plateId: int,
                   doc: Doc, docs: seq<WellDocument>, ghost childFailure: Option<Failure>)
    modifies trace
    ensures trace.events == old(trace.events) + PlateStepEvents(dryRun, index, Encoded(plateId, doc, docs, childFailure))
  {
    if dryRun {
      trace.Emit(Printed(doc));
      for k := 0 to |docs|
        invariant trace.events == old(trace.events) + [Printed(doc)] + PrintedDocs(WellDocs(docs[..k]))
      {
        assert WellDocs(docs[..k + 1]) == WellDocs(docs[..k]) + [docs[k].document];
        trace.Emit(Printed(docs[k].document));
      }
      assert docs[..|docs|] == docs;
    } else {
      trace.Emit(Upsert(index, "plate", plateId, doc));
      trace.Emit(Bulk(WellActions(plateId, index, docs)));
    }
  }

  /** One iteration of the inner loop of `index_screens`: build the plate's
      document; print it and its well documents, or upsert it and
      bulk-index its well actions. */
  method IndexPlate(trace: Trace, dryRun: bool, index: string, plate: ModelObject,
                    fetch: (int, nat) -> seq<ModelObject>, ghost bound: nat,
                    encode: StructuralEncoder, ghost world: set<ModelObject>)
    returns (ghost step: Step<WellDocument>, ghost detailsThen: bool, failure: Option<Failure>)
    requires AllShortBeyond(fetch, bound) && Closed(world) && Typed(world) && Serves(fetch, world, Well)
    requires plate in world && plate.kind == Plate && DetailsTyped(plate)
    modifies trace, Parts(world)
    ensures detailsThen == old(plate.detailsLoaded)
    ensures PlateStepAgrees(step, plate, detailsThen, fetch, bound, encode)
    ensures failure == StepFailure(step)
    ensures trace.events == old(trace.events) + PlateStepEvents(dryRun, index, step)
  {
    detailsThen := plate.detailsLoaded;
    PlateTargetsWithin(plate, world);
    PlateTargetsFree(plate, world);
    var r := EncodePlate(plate, encode);
    if r.Err? {
      return Unencodable(r.error), detailsThen, Some(r.error);
    }
    var docs;
    docs, failure := PlateChildren(plate, fetch, bound, encode, world);
    step := Encoded(plate.id, r.value, docs, failure);
    EmitPlate(trace, dryRun, index, plate.id, r.value, docs, failure);
  }

  lemma PlateRunStep(dryRun: bool, index: string, steps: seq<Step<WellDocument>>, step: Step<WellDocument>)
    ensures PlateRunEvents(dryRun, index, steps + [step])
      == PlateRunEvents(dryRun, index, steps) + PlateStepEvents(dryRun, index, step)
  {
    assert (steps + [step])[..|steps|] == steps;
  }

  lemma {:induction false} PlateRunAppend(dryRun: bool, index: string, a: seq<Step<WellDocument>>, b: seq<Step<WellDocument>>)
    ensures PlateRunEvents(dryRun, index, a + b) == PlateRunEvents(dryRun, index, a) + PlateRunEvents(dryRun, index, b)
  {
    if b == [] {
      assert a + b == a;
    } else {
      var b' := b[..|b| - 1];
      PlateRunAppend(dryRun, index, a, b');
      assert (a + b)[..|a + b| - 1] == a + b';
      AppendAssoc(PlateRunEvents(dryRun, index, a), PlateRunEvents(dryRun, index, b'),
                  PlateStepEvents(dryRun, index, b[|b| - 1]));
    }
  }

  /** Step `k` is what processing the `k`-th plate produces. */
  ghost predicate PlateStepsAgree(steps: seq<Step<WellDocument>>, plates: seq<ModelObject>, detailsThen: seq<bool>,
                                  fetch: (int, nat) -> seq<ModelObject>, bound: nat, encode: StructuralEncoder)
    requires AllShortBeyond(fetch, bound)
  {
    && |steps| <= |plates| && |detailsThen| == |steps|
    && forall k {:trigger PlateStepAgrees(steps[k], plates[k], detailsThen[k], fetch, bound, encode)} :: 0 <= k < |steps| ==>
         PlateStepAgrees(steps[k], plates[k], detailsThen[k], fetch, bound, encode)
  }

  /** The inner loop of `index_screens`: the plates of one screen in order;
      the first exception ends the run. */
  method IndexScreen(trace: Trace, dryRun: bool, index: string, plates: seq<ModelObject>,
                     fetch: (int, nat) -> seq<ModelObject>, ghost bound: nat,
                     encode: StructuralEncoder, ghost world: set<ModelObject>)
    returns (ghost steps: seq<Step<WellDocument>>, ghost detailsThen: seq<bool>, failure: Option<Failure>)
    requires AllShortBeyond(fetch, bound) && Closed(world) && Typed(world) && Serves(fetch, world, Well)
    requires forall p :: p in plates ==> p in world && p.kind == Plate && DetailsTyped(p)
    modifies trace, Parts(world)
    ensures PlateStepsAgree(steps, plates, detailsThen, fetch, bound, encode)
    ensures forall k :: 0 <= k < |detailsThen| ==> detailsThen[k] == old(plates[k].detailsLoaded)
    ensures failure.None? ==> |steps| == |plates|
    ensures FailsAtEnd(steps, failure)
    ensures trace.events == old(trace.events) + PlateRunEvents(dryRun, index, steps)
  {
    steps := [];
    detailsThen := [];
    failure := None;
    for i := 0 to |plates|
      invariant |steps| == i && |detailsThen| == i
      invariant PlateStepsAgree(steps, plates, detailsThen, fetch, bound, encode)
      invariant forall k :: 0 <= k < i ==> detailsThen[k] == plates[k].detailsLoaded
      invariant FailsAtEnd(steps, None)
      invariant trace.events == old(trace.events) + PlateRunEvents(dryRun, index, steps)
    {
      var f;
      steps, detailsThen, f := IndexNextPlate(trace, dryRun, index, plates, i, fetch, bound, encode, world, steps, detailsThen, old(trace.events));
      if f.Some? {
        failure := f;
        break;
      }
    }
    forall k | 0 <= k < |detailsThen| ensures detailsThen[k] == old(plates[k].detailsLoaded) {
      assert plates[k] in plates;
    }
  }

  /** The next plate of the inner loop of `index_screens`, after `steps`. */
  method IndexNextPlate(trace: Trace, dryRun: bool, index: string, plates: seq<ModelObject>, i: nat,
                        fetch: (int, nat) -> seq<ModelObject>, ghost bound: nat,
                        encode: StructuralEncoder, ghost world: set<ModelObject>,
                        ghost steps: seq<Step<WellDocument>>, ghost detailsThen: seq<bool>, ghost start: seq<Event>)
    returns (ghost steps': seq<Step<WellDocument>>, ghost detailsThen': seq<bool>, failure: Option<Failure>)
    requires AllShortBeyond(fetch, bound) && Closed(world) && Typed(world) && Serves(fetch, world, Well)
    requires PlatesTyped(plates, world)
    requires i == |steps| < |plates| && PlateStepsAgree(steps, plates, detailsThen, fetch, bound, encode) && FailsAtEnd(steps, None)
    requires forall k :: 0 <= k < i ==> detailsThen[k] == plates[k].detailsLoaded
    requires trace.events == start + PlateRunEvents(dryRun, index, steps)
    modifies trace, Parts(world)
    ensures |steps'| == i + 1 && |detailsThen'| == i + 1
    ensures PlateStepsAgree(steps', plates, detailsThen', fetch, bound, encode) && FailsAtEnd(steps', failure)
    ensures forall k :: 0 <= k < i + 1 ==> detailsThen'[k] == plates[k].detailsLoaded
    ensures trace.events == start + PlateRunEvents(dryRun, index, steps')
  {
    assert plates[i] in plates;
    ghost var step, d;
    step, d, failure := IndexPlate(trace, dryRun, index, plates[i], fetch, bound, encode, world);
    PlateRunStep(dryRun, index, steps, step);
    AppendAssoc(start, PlateRunEvents(dryRun, index, steps), PlateStepEvents(dryRun, index, step));
    PlateStepsAgreeSnoc(steps, plates, detailsThen, fetch, bound, encode, step, d);
    FailsAtEndAppend(steps, [step], failure);
    steps', detailsThen' := steps + [step], detailsThen + [d];
    forall k | 0 <= k < i ensures detailsThen'[k] == plates[k].detailsLoaded {
      assert plates[k] in plates;
    }
  }

  lemma PlateStepsAgreeSnoc(steps: seq<Step<WellDocument>>, plates: seq<ModelObject>, detailsThen: seq<bool>,
                            fetch: (int, nat) -> seq<ModelObject>, bound: nat, encode: StructuralEncoder,
                            step: Step<WellDocument>, d: bool)
    requires AllShortBeyond(fetch, bound)
    requires PlateStepsAgree(steps, plates, detailsThen, fetch, bound, encode)
    requires |steps| < |plates|
    requires PlateStepAgrees(step, plates[|steps|], d, fetch, bound, encode)
    ensures PlateStepsAgree(steps + [step], plates, detailsThen + [d], fetch, bound, encode)
  {
  }

  /** Plates the query service hands out, with their details typed. */
  ghost predicate PlatesTyped(plates: seq<ModelObject>, world: set<ModelObject>)
  {
    forall p :: p in plates ==> p in world && p.kind == Plate && DetailsTyped(p)
  }

  lemma PlatesTypedPrefix(done: seq<ModelObject>, plates: seq<ModelObject>, all: seq<ModelObject>, world: set<ModelObject>)
    requires PlatesTyped(all, world) && done + plates <= all
    ensures PlatesTyped(plates, world)
  {
    forall p | p in plates ensures p in all {
      var j :| 0 <= j < |plates| && plates[j] == p;
      assert all[|done| + j] == p;
    }
  }

  /** The plate query of one screen, as a value independent of the heap. */
  function PlatesOf(platesOf: int -> seq<ModelObject>, id: int): seq<ModelObject>
  {
    platesOf(id)
  }

  /** The plates of the screens, screen by screen, each in the order the
      plate query returns them. */
  function AllPlates(screenIds: seq<int>, platesOf: int -> seq<ModelObject>): seq<ModelObject>
  {
    if screenIds == [] then []
    else AllPlates(screenIds[..|screenIds| - 1], platesOf) + PlatesOf(platesOf, screenIds[|screenIds| - 1])
  }

  lemma {:induction false} AllPlatesPrefix(screenIds: seq<int>, platesOf: int -> seq<ModelObject>, n: nat)
    requires n <= |screenIds|
    ensures AllPlates(screenIds[..n], platesOf) <= AllPlates(screenIds, platesOf)
  {
    if n < |screenIds| {
      var init := screenIds[..|screenIds| - 1];
      assert init[..n] == screenIds[..n];
      AllPlatesPrefix(init, platesOf, n);
    } else {
      assert screenIds[..n] == screenIds;
    }
  }
  /** The plates of the first s + 1 screens are those of the first s, then
      those of screen s, and they start the plates of all screens. */
  lemma NextScreen(screenIds: seq<int>, platesOf: int -> seq<ModelObject>, s: nat)
    requires s < |screenIds|
    ensures AllPlates(screenIds[..s + 1], platesOf) == AllPlates(screenIds[..s], platesOf) + PlatesOf(platesOf, screenIds[s])
    ensures AllPlates(screenIds[..s + 1], platesOf) <= AllPlates(screenIds, platesOf)
  {
    assert screenIds[..s + 1][..s] == screenIds[..s];
    AllPlatesPrefix(screenIds, platesOf, s + 1);
  }


  lemma PlateStepsAgreeAppend(steps1: seq<Step<WellDocument>>, plates1: seq<ModelObject>, detailsThen1: seq<bool>,
                              steps2: seq<Step<WellDocument>>, plates2: seq<ModelObject>, detailsThen2: seq<bool>,
                              fetch: (int, nat) -> seq<ModelObject>, bound: nat, encode: StructuralEncoder)
    requires AllShortBeyond(fetch, bound)
    requires PlateStepsAgree(steps1, plates1, detailsThen1, fetch, bound, encode) && |steps1| == |plates1|
    requires PlateStepsAgree(steps2, plates2, detailsThen2, fetch, bound, encode)
    ensures PlateStepsAgree(steps1 + steps2, plates1 + plates2, detailsThen1 + detailsThen2, fetch, bound, encode)
  {
    var steps, plates, detailsThen := steps1 + steps2, plates1 + plates2, detailsThen1 + detailsThen2;
    forall k | 0 <= k < |steps| ensures PlateStepAgrees(steps[k], plates[k], detailsThen[k], fetch, bound, encode) {
      if k >= |steps1| {
        var j := k - |steps1|;
        assert steps[k] == steps2[j] && plates[k] == plates2[j] && detailsThen[k] == detailsThen2[j];
      }
    }
  }

  lemma PlateStepsAgreePrefix(steps: seq<Step<WellDocument>>, plates: seq<ModelObject>, all: seq<ModelObject>, detailsThen: seq<bool>,
                              fetch: (int, nat) -> seq<ModelObject>, bound: nat, encode: StructuralEncoder)
    requires AllShortBeyond(fetch, bound)
    requires PlateStepsAgree(steps, plates, detailsThen, fetch, bound, encode) && plates <= all
    ensures PlateStepsAgree(steps, all, detailsThen, fetch, bound, encode)
  {
    forall k | 0 <= k < |steps| ensures plates[k] == all[k] {
    }
  }

  lemma ScreenRound(dryRun: bool, index: string, start: seq<Event>, now: seq<Event>,
                    steps: seq<Step<WellDocument>>, more: seq<Step<WellDocument>>, detailsThen: seq<bool>, d: seq<bool>,
                    f: Option<Failure>, done: seq<ModelObject>, plates: seq<ModelObject>,
                    fetch: (int, nat) -> seq<ModelObject>, bound: nat, encode: StructuralEncoder)
    requires AllShortBeyond(fetch, bound)
    requires |steps| == |done| && PlateStepsAgree(steps, done, detailsThen, fetch, bound, encode) && FailsAtEnd(steps, None)
    requires PlateStepsAgree(more, plates, d, fetch, bound, encode) && FailsAtEnd(more, f)
    requires now == start + PlateRunEvents(dryRun, index, steps) + PlateRunEvents(dryRun, index, more)
    ensures PlateStepsAgree(steps + more, done + plates, detailsThen + d, fetch, bound, encode)
    ensures FailsAtEnd(steps + more, f)
    ensures now == start + PlateRunEvents(dryRun, index, steps + more)
  {
    PlateRunAppend(dryRun, index, steps, more);
    AppendAssoc(start, PlateRunEvents(dryRun, index, steps), PlateRunEvents(dryRun, index, more));
    PlateStepsAgreeAppend(steps, done, detailsThen, more, plates, d, fetch, bound, encode);
    FailsAtEndAppend(steps, more, f);
  }

  method IndexScreenRound(trace: Trace, dryRun: bool, index: string, plates: seq<ModelObject>,
                     fetch: (int, nat) -> seq<ModelObject>, ghost bound: nat,
                     encode: StructuralEncoder, ghost world: set<ModelObject>,
                     ghost steps: seq<Step<WellDocument>>, ghost detailsThen: seq<bool>, ghost done: seq<ModelObject>,
                     ghost all: seq<ModelObject>, ghost start: seq<Event>)
    returns (ghost steps': seq<Step<WellDocument>>, ghost detailsThen': seq<bool>, failure: Option<Failure>)
    requires AllShortBeyond(fetch, bound) && Closed(world) && Typed(world) && Serves(fetch, world, Well)
    requires PlatesTyped(all, world) && done + plates <= all
    requires |steps| == |done| && PlateStepsAgree(steps, done, detailsThen, fetch, bound, encode) && FailsAtEnd(steps, None)
    requires forall k :: 0 <= k < |detailsThen| ==> detailsThen[k] == all[k].detailsLoaded
    requires trace.events == start + PlateRunEvents(dryRun, index, steps)
    modifies trace, Parts(world)
    ensures PlateStepsAgree(steps', done + plates, detailsThen', fetch, bound, encode)
    ensures forall k :: 0 <= k < |detailsThen'| ==> detailsThen'[k] == all[k].detailsLoaded
    ensures failure.None? ==> |steps'| == |done + plates|
    ensures FailsAtEnd(steps', failure)
    ensures trace.events == start + PlateRunEvents(dryRun, index, steps')
  {
    PlatesTypedPrefix(done, plates, all, world);
    ghost var more, d;
    more, d, failure := IndexScreen(trace, dryRun, index, plates, fetch, bound, encode, world);
    ScreenRound(dryRun, index, start, trace.events, steps, more, detailsThen, d, failure, done, plates, fetch, bound, encode);
    steps', detailsThen' := steps + more, detailsThen + d;
    forall k | 0 <= k < |detailsThen'| ensures detailsThen'[k] == all[k].detailsLoaded {
      assert all[k] == (done + plates)[k] && all[k] in all;
    }
  }

  /** `index_screens`: for each screen in the given order, its plates in
      order; the first exception ends the run. */
  method IndexScreens(trace: Trace, dryRun: bool, index: string, screenIds: seq<int>,
                      platesOf: int -> seq<ModelObject>, fetch: (int, nat) -> seq<ModelObject>, ghost bound: nat,
                      encode: StructuralEncoder, ghost world: set<ModelObject>)
    returns (ghost steps: seq<Step<WellDocument>>, ghost detailsThen: seq<bool>, failure: Option<Failure>)
    requires AllShortBeyond(fetch, bound) && Closed(world) && Typed(world) && Serves(fetch, world, Well)
    requires PlatesTyped(AllPlates(screenIds, platesOf), world)
    modifies trace, Parts(world)
    ensures PlateStepsAgree(steps, AllPlates(screenIds, platesOf), detailsThen, fetch, bound, encode)
    ensures forall k :: 0 <= k < |detailsThen| ==> detailsThen[k] == old(AllPlates(screenIds, platesOf)[k].detailsLoaded)
    ensures failure.None? ==> |steps| == |AllPlates(screenIds, platesOf)|
    ensures FailsAtEnd(steps, failure)
    ensures trace.events == old(trace.events) + PlateRunEvents(dryRun, index, steps)
  {
    ghost var all := AllPlates(screenIds, platesOf);
    steps := [];
    detailsThen := [];
    failure := None;
    for s := 0 to |screenIds|
      invariant |steps| == |AllPlates(screenIds[..s], platesOf)|
      invariant PlateStepsAgree(steps, AllPlates(screenIds[..s], platesOf), detailsThen, fetch, bound, encode)
      invariant AllPlates(screenIds[..s], platesOf) <= all
      invariant forall k :: 0 <= k < |detailsThen| ==> detailsThen[k] == all[k].detailsLoaded
      invariant FailsAtEnd(steps, None)
      invariant trace.events == old(trace.events) + PlateRunEvents(dryRun, index, steps)
    {
      ghost var done := AllPlates(screenIds[..s], platesOf);
      var plates := PlatesOf(platesOf, screenIds[s]);
      NextScreen(screenIds, platesOf, s);
      var f;
      steps, detailsThen, f := IndexScreenRound(trace, dryRun, index, plates, fetch, bound, encode, world, steps, detailsThen, done, all, old(trace.events));
      if f.Some? {
        PlateStepsAgreePrefix(steps, done + plates, all, detailsThen, fetch, bound, encode);
        failure := f;
        break;
      }
    }
    assert screenIds[..|screenIds|] == screenIds;
    forall k | 0 <= k < |detailsThen| && all[k] in world ensures detailsThen[k] == old(all[k].detailsLoaded) {
      assert all[k] in all;
    }
  }

  // ---------------------------------------------------------------------------
  // What a run looks like from outside

  /** The ids of the `Upsert` calls, in order. */
  function UpsertIds(events: seq<Event>): seq<int>
  {
    if events == [] then []
    else UpsertIds(events[..|events| - 1]) + (if events[|events| - 1].Upsert? then [events[|events| - 1].id] else [])
  }

  lemma {:induction false} UpsertIdsAppend(a: seq<Event>, b: seq<Event>)
    ensures UpsertIds(a + b) == UpsertIds(a) + UpsertIds(b)
  {
    if b != [] {
      var b' := b[..|b| - 1];
      assert (a + b)[..|a + b| - 1] == a + b';
      UpsertIdsAppend(a, b');
    } else {
      assert a + b == a;
    }
  }

  /** An upsert followed by a bulk call upserts one id. */
  lemma UpsertIdsPair(u: Event, b: Event)
    requires u.Upsert? && !b.Upsert?
    ensures UpsertIds([u, b]) == [u.id]
  {
    assert [u, b][..1] == [u];
    assert [u][..0] == [];
    assert UpsertIds([u]) == UpsertIds([]) + [u.id];
    assert UpsertIds([u, b]) == UpsertIds([u]) + [];
  }

  /** The project ids whose step got as far as a document, in order. */
  function EncodedProjectIds(ids: seq<int>, steps: seq<Step<ImageDocument>>): seq<int>
    requires |ids| == |steps|
  {
    if ids == [] then []
    else
      var last := if steps[|steps| - 1].Encoded? then [ids[|ids| - 1]] else [];
      EncodedProjectIds(ids[..|ids| - 1], steps[..|steps| - 1]) + last
  }

  /** The plate ids whose step got as far as a document, in order. */
  function EncodedPlateIds(steps: seq<Step<WellDocument>>): seq<int>
  {
    if steps == [] then []
    else
      var last := if steps[|steps| - 1].Encoded? then [steps[|steps| - 1].parentId] else [];
      EncodedPlateIds(steps[..|steps| - 1]) + last
  }

  /** A dry run only prints: no project is upserted, no bulk call is made. */
  lemma {:induction false} ProjectDryRunOnlyPrints(index: string, ids: seq<int>, steps: seq<Step<ImageDocument>>)
    requires |ids| == |steps|
    ensures forall e :: e in ProjectRunEvents(true, index, ids, steps) ==> e.Printed?
  {
    if ids != [] {
      ProjectDryRunOnlyPrints(index, ids[..|ids| - 1], steps[..|steps| - 1]);
    }
  }

  /** A dry run over plates only prints. */
  lemma {:induction false} PlateDryRunOnlyPrints(index: string, steps: seq<Step<WellDocument>>)
    ensures forall e :: e in PlateRunEvents(true, index, steps) ==> e.Printed?
  {
    if steps != [] {
      PlateDryRunOnlyPrints(index, steps[..|steps| - 1]);
    }
  }

  /** The shape of an indexing run: upsert, bulk, upsert, bulk, ... */
  ghost predicate Alternates(events: seq<Event>)
  {
    && |events| % 2 == 0
    && forall k :: 0 <= k < |events| ==> if k % 2 == 0 then events[k].Upsert? else events[k].Bulk?
  }

  lemma AlternatesAppend(a: seq<Event>, b: seq<Event>)
    requires Alternates(a) && Alternates(b)
    ensures Alternates(a + b)
  {
    forall k | |a| <= k < |a + b| ensures if k % 2 == 0 then (a + b)[k].Upsert? else (a + b)[k].Bulk? {
      assert (a + b)[k] == b[k - |a|];
      assert k % 2 == (k - |a|) % 2;
    }
  }

  /** Sending to Elasticsearch, every parent document that was built is
      upserted and immediately followed by the bulk call for its children. */
  lemma {:induction false} ProjectIndexRunAlternates(index: string, ids: seq<int>, steps: seq<Step<ImageDocument>>)
    requires |ids| == |steps|
    ensures Alternates(ProjectRunEvents(false, index, ids, steps))
  {
    if ids != [] {
      ProjectIndexRunAlternates(index, ids[..|ids| - 1], steps[..|steps| - 1]);
      AlternatesAppend(ProjectRunEvents(false, index, ids[..|ids| - 1], steps[..|steps| - 1]),
                       ProjectStepEvents(false, index, ids[|ids| - 1], steps[|steps| - 1]));
    }
  }

  lemma {:induction false} PlateIndexRunAlternates(index: string, steps: seq<Step<WellDocument>>)
    ensures Alternates(PlateRunEvents(false, index, steps))
  {
    if steps != [] {
      PlateIndexRunAlternates(index, steps[..|steps| - 1]);
      AlternatesAppend(PlateRunEvents(false, index, steps[..|steps| - 1]), PlateStepEvents(false, index, steps[|steps| - 1]));
    }
  }

  /** The projects are upserted in the order of their ids, each project
      whose document was built exactly once, under the id it was asked for. */
  lemma {:induction false} ProjectUpsertOrder(index: string, ids: seq<int>, steps: seq<Step<ImageDocument>>)
    requires |ids| == |steps|
    ensures UpsertIds(ProjectRunEvents(false, index, ids, steps)) == EncodedProjectIds(ids, steps)
  {
    if ids != [] {
      var init := ProjectRunEvents(false, index, ids[..|ids| - 1], steps[..|steps| - 1]);
      var last := ProjectStepEvents(false, index, ids[|ids| - 1], steps[|steps| - 1]);
      ProjectUpsertOrder(index, ids[..|ids| - 1], steps[..|steps| - 1]);
      UpsertIdsAppend(init, last);
      if steps[|steps| - 1].Encoded? {
        UpsertIdsPair(last[0], last[1]);
      }
    }
  }

  /** The plates are upserted in the order they were processed, under their
      own ids. */
  lemma {:induction false} PlateUpsertOrder(index: string, steps: seq<Step<WellDocument>>)
    ensures UpsertIds(PlateRunEvents(false, index, steps)) == EncodedPlateIds(steps)
  {
    if steps != [] {
      var init := PlateRunEvents(false, index, steps[..|steps| - 1]);
      var last := PlateStepEvents(false, index, steps[|steps| - 1]);
      PlateUpsertOrder(index, steps[..|steps| - 1]);
      UpsertIdsAppend(init, last);
      if steps[|steps| - 1].Encoded? {
        UpsertIdsPair(last[0], last[1]);
      }
    }
  }
}
