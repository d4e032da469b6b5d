/** The pruning passes of the document builders: before an object is handed to
    the structural encoder, the details of the objects around it are unloaded
    so that the encoder neither follows nor serialises them. */
module Pruning {
  import opened Values
  import opened ObjectGraph

  /** The union of `f` over the elements of `xs`. */
  function UnionOf<T>(xs: seq<T>, f: T -> set<ModelObject>): set<ModelObject>
  {
    if xs == [] then {} else UnionOf(xs[..|xs| - 1], f) + f(xs[|xs| - 1])
  }

  lemma UnionOfStep<T>(xs: seq<T>, i: nat, f: T -> set<ModelObject>)
    requires i < |xs|
    ensures UnionOf(xs[..i + 1], f) == UnionOf(xs[..i], f) + f(xs[i])
  {
    assert xs[..i + 1][..i] == xs[..i];
  }

  lemma {:induction false} UnionOfMember<T>(xs: seq<T>, f: T -> set<ModelObject>, o: ModelObject)
    ensures o in UnionOf(xs, f) <==> exists i :: 0 <= i < |xs| && o in f(xs[i])
  {
    if xs != [] {
      var init := xs[..|xs| - 1];
      UnionOfMember(init, f, o);
      if o in UnionOf(init, f) {
        var i :| 0 <= i < |init| && o in f(init[i]);
        assert o in f(xs[i]);
      }
      if exists i :: 0 <= i < |xs| && o in f(xs[i]) {
        var i :| 0 <= i < |xs| && o in f(xs[i]);
        if i < |xs| - 1 {
          assert o in f(init[i]);
        }
      }
    }
  }

  lemma UnionOfContains<T>(xs: seq<T>, f: T -> set<ModelObject>, i: nat)
    requires i < |xs|
    ensures f(xs[i]) <= UnionOf(xs, f)
  {
    forall o | o in f(xs[i]) ensures o in UnionOf(xs, f) {
      UnionOfMember(xs, f, o);
    }
  }

  /** Every object of a union is allocated when every object of each part is:
      needed to carry facts about the objects of a target set across a heap
      change. */
  lemma UnionAllocated<T>(xs: seq<T>, f: T -> set<ModelObject>)
    requires forall i :: 0 <= i < |xs| ==> forall x :: x in f(xs[i]) ==> allocated(x)
    ensures forall x :: x in UnionOf(xs, f) ==> allocated(x)
  {
    forall x | x in UnionOf(xs, f) ensures allocated(x) {
      UnionOfMember(xs, f, x);
    }
  }

  // ---------------------------------------------------------------------------
  // What each pass unloads

  function LinkChild(l: Link): set<ModelObject> { {l.child} }

  /** The objects whose details `unload_annotation_details(o)` unloads. */
  function AnnotationTargets(o: ModelObject): set<ModelObject>
  {
    if o.annotationLinks.Loaded? then UnionOf(o.annotationLinks.items, LinkChild) else {}
  }

  lemma AnnotationTargetsAllocated(o: ModelObject)
    ensures forall x :: x in AnnotationTargets(o) ==> allocated(x)
  {
    if o.annotationLinks.Loaded? {
      UnionAllocated(o.annotationLinks.items, LinkChild);
    }
  }

  lemma EachWithAnnotationsAllocated(xs: seq<ModelObject>)
    ensures forall x :: x in UnionOf(xs, WithAnnotations) ==> allocated(x)
  {
    forall i | 0 <= i < |xs| ensures forall x :: x in WithAnnotations(xs[i]) ==> allocated(x) {
      AnnotationTargetsAllocated(xs[i]);
    }
    UnionAllocated(xs, WithAnnotations);
  }

  /** `x.unloadDetails(); unload_annotation_details(x)` */
  function WithAnnotations(x: ModelObject): set<ModelObject>
  {
    {x} + AnnotationTargets(x)
  }

  /** The objects `encode_image` unloads. */
  function ImageTargets(img: ModelObject): set<ModelObject>
  {
    (if img.pixels.LoadedNonEmpty() then
       var p := img.pixels.items[0];
       {p} + (if p.channels.LoadedNonEmpty() then UnionOf(p.channels.items, WithAnnotations) else {})
     else {})
    + AnnotationTargets(img)
  }

  /** The owner, the group and the group's experimenters, unloaded first by
      `encode_project` and `encode_plate`. */
  function OwnerGroupTargets(c: ModelObject): set<ModelObject>
  {
    (if c.owner != null then {c.owner} else {})
    + (if c.group != null then
         {c.group} + (if c.group.groupExperimenterMap.Loaded? then UnionOf(c.group.groupExperimenterMap.items, LinkChild) else {})
       else {})
  }

  /** The objects `encode_project` unloads when it completes. */
  function ProjectTargets(p: ModelObject): set<ModelObject>
  {
    OwnerGroupTargets(p)
    + (if p.datasetLinks.LoadedNonEmpty() then UnionOf(Children(p.datasetLinks.items), WithAnnotations) else {})
    + AnnotationTargets(p)
  }

  /** The objects `encode_plate` unloads when it completes. */
  function PlateTargets(p: ModelObject): set<ModelObject>
  {
    OwnerGroupTargets(p)
    + (if p.screenLinks.LoadedNonEmpty() then UnionOf(Parents(p.screenLinks.items), WithAnnotations) else {})
    + AnnotationTargets(p)
  }

  /** Whether `encode_project` / `encode_plate` raises, given whether the
      container's details were loaded when it ran: AttributeError without
      details, owner or group, UnloadedEntityException from an unloaded
      experimenter map. */
  function ContainerFailure(c: ModelObject, detailsLoaded: bool): Option<Failure>
  {
    if !detailsLoaded || c.owner == null || c.group == null then Some(NoneAttribute)
    else if !c.group.groupExperimenterMap.Loaded? then Some(UnloadedEntity)
    else None
  }

  /** How far `encode_project` / `encode_plate` get before they raise: the
      objects unloaded by then and the failure, given the full target set. */
  function ContainerOutcome(c: ModelObject, full: set<ModelObject>): (r: (set<ModelObject>, Option<Failure>))
    reads c
    ensures r.1 == ContainerFailure(c, c.detailsLoaded)
    ensures r.1.Some? ==> r.0 <= OwnerGroupTargets(c)
  {
    if !c.detailsLoaded || c.owner == null then ({}, Some(NoneAttribute))
    else if c.group == null then ({c.owner}, Some(NoneAttribute))
    else if !c.group.groupExperimenterMap.Loaded? then ({c.owner, c.group}, Some(UnloadedEntity))
    else (full, None)
  }

  /** A well sample whose image is loaded but has an empty pixels list makes
      `getPrimaryPixels()` raise. */
  predicate SampleFails(s: ModelObject)
  {
    s.image != null && s.image.loaded && s.image.pixels == Loaded([])
  }

  /** The objects the well-sample step of `encode_well` unloads (up to the
      failure, when the sample fails). */
  function SampleTargets(s: ModelObject): set<ModelObject>
  {
    {s} +
    (if s.image != null && s.image.loaded then
       var img := s.image;
       {img} + AnnotationTargets(img) +
       (if img.pixels.LoadedNonEmpty() then
          var p := img.pixels.items[0];
          {p} + (if p.channels.Loaded? then UnionOf(p.channels.items, WithAnnotations) else {})
        else {})
     else {})
  }

  /** Running the sample steps in order: what is unloaded, and whether a
      sample failed (which stops the run). */
  function SamplesRun(samples: seq<ModelObject>): (r: (set<ModelObject>, bool))
    ensures r.0 <= UnionOf(samples, SampleTargets)
  {
    if samples == [] then ({}, false)
    else
      var (done, failed) := SamplesRun(samples[..|samples| - 1]);
      if failed then (done, true)
      else (done + SampleTargets(samples[|samples| - 1]), SampleFails(samples[|samples| - 1]))
  }

  /** The objects `encode_well` unloads when it completes. */
  function WellTargets(w: ModelObject): set<ModelObject>
  {
    {w}
    + (if w.wellSamples.LoadedNonEmpty() then UnionOf(w.wellSamples.items, SampleTargets) else {})
    + AnnotationTargets(w)
  }

  /** `encode_well` unloads only objects it may touch. */
  lemma WellOutcomeWithin(w: ModelObject)
    ensures WellOutcome(w).0 <= WellTargets(w)
  {
  }

  /** What `encode_well` unloads and whether it raises. */
  function WellOutcome(w: ModelObject): (set<ModelObject>, Option<Failure>)
  {
    if w.wellSamples.LoadedNonEmpty() && SamplesRun(w.wellSamples.items).1 then
      ({w} + SamplesRun(w.wellSamples.items).0, Some(IndexOutOfRange))
    else (WellTargets(w), None)
  }

  /** Between the old and the new state, the objects of `frame` in `unloaded`
      had their details unloaded and the others of `frame` kept theirs. */
  twostate predicate UnloadedExactly(frame: set<ModelObject>, new unloaded: set<ModelObject>)
    reads frame
  {
    forall o :: o in frame ==> o.detailsLoaded == (old(o.detailsLoaded) && o !in unloaded)
  }

  /** Against the detail states `start` of a run of passes, the objects of
      `frame` in `unloaded` have had their details unloaded and the others of
      `frame` have kept theirs: `UnloadedExactly` carried through helper calls. */
  ghost predicate UnloadedSince(frame: set<ModelObject>, start: map<ModelObject, bool>, unloaded: set<ModelObject>)
    reads frame
  {
    forall o :: o in frame ==> o in start && o.detailsLoaded == (start[o] && o !in unloaded)
  }

  /** Every object of `s` has its details unloaded. */
  ghost predicate AllUnloaded(s: set<ModelObject>)
    reads s
  {
    forall o :: o in s ==> !o.detailsLoaded
  }

  /** The structural encoder of an object's class: its document depends on the
      object and on which of the objects around it still have their details
      loaded when it is called (those it follows and serialises). */
  type StructuralEncoder = (ModelObject, set<ModelObject>) -> Doc

  /** The objects of `frame` whose details are still loaded: what the
      structural encoder can still reach of `frame`. */
  function LoadedIn(frame: set<ModelObject>): set<ModelObject>
    reads frame
  {
    set o | o in frame && o.detailsLoaded
  }

  /** After a pass, none of its targets is visible to the encoder. */
  lemma NothingLoadedIn(frame: set<ModelObject>)
    requires forall o :: o in frame ==> !o.detailsLoaded
    ensures LoadedIn(frame) == {}
  {
  }

  // ---------------------------------------------------------------------------
  // The passes

  /** Unload the details of the child of each link, in order (the loops over
      annotation links and over the group's experimenter map). */
  method UnloadChildren(links: seq<Link>)
    modifies UnionOf(links, LinkChild)
    ensures forall x :: x in UnionOf(links, LinkChild) ==> !x.detailsLoaded
  {
    for i := 0 to |links|
      invariant forall x :: x in UnionOf(links[..i], LinkChild) ==> !x.detailsLoaded
    {
      UnionOfContains(links, LinkChild, i);
      UnionAllocated(links[..i], LinkChild);
      links[i].child.UnloadDetails();
      UnionOfStep(links, i, LinkChild);
    }
    assert links[..|links|] == links;
  }

  /** `BaseDocument.unload_annotation_details`: when the annotation links are
      loaded, unload the details of each linked annotation. */
  method UnloadAnnotationDetails(o: ModelObject)
    modifies AnnotationTargets(o)
    ensures forall x :: x in AnnotationTargets(o) ==> !x.detailsLoaded
  {
    if o.annotationLinks.Loaded? {
      UnloadChildren(o.annotationLinks.items);
    }
  }

  /** The loop body shared by the channel, dataset and screen passes: unload
      each object's details and its annotations' details, in order. */
  method UnloadEachWithAnnotations(xs: seq<ModelObject>)
    modifies UnionOf(xs, WithAnnotations)
    ensures forall x :: x in UnionOf(xs, WithAnnotations) ==> !x.detailsLoaded
  {
    for i := 0 to |xs|
      invariant forall x :: x in UnionOf(xs[..i], WithAnnotations) ==> !x.detailsLoaded
    {
      UnionOfContains(xs, WithAnnotations, i);
      EachWithAnnotationsAllocated(xs[..i]);
      xs[i].UnloadDetails();
      UnloadAnnotationDetails(xs[i]);
      UnionOfStep(xs, i, WithAnnotations);
    }
    assert xs[..|xs|] == xs;
  }

  /** `ImageDocument.encode_image`: prune the primary pixels and their
      channels (only when loaded and non-empty) and the image's annotations,
      then call the structural encoder. */
  method EncodeImage(img: ModelObject, encode: StructuralEncoder) returns (doc: Doc)
    modifies ImageTargets(img)
    ensures forall x :: x in ImageTargets(img) ==> !x.detailsLoaded
    ensures doc == encode(img, LoadedIn(ImageTargets(img))) && LoadedIn(ImageTargets(img)) == {}
  {
    if img.pixels.Loaded? && |img.pixels.items| > 0 {
      var pixels := img.pixels.items[0];
      pixels.UnloadDetails();
      if pixels.channels.Loaded? && |pixels.channels.items| > 0 {
        UnloadEachWithAnnotations(pixels.channels.items);
      }
    }
    if img.pixels.LoadedNonEmpty() && img.pixels.items[0].channels.LoadedNonEmpty() {
      EachWithAnnotationsAllocated(img.pixels.items[0].channels.items);
    }
    UnloadAnnotationDetails(img);
    doc := encode(img, LoadedIn(ImageTargets(img)));
    NothingLoadedIn(ImageTargets(img));
  }

  lemma OwnerGroupAllocated(c: ModelObject)
    ensures forall x :: x in OwnerGroupTargets(c) ==> allocated(x)
  {
    if c.group != null && c.group.groupExperimenterMap.Loaded? {
      UnionAllocated(c.group.groupExperimenterMap.items, LinkChild);
    }
  }

  /** Lines shared by `encode_project` and `encode_plate`: unload the owner,
      the group and each experimenter of the group. Raises (AttributeError)
      when the details, the owner or the group are missing, and
      UnloadedEntityException when the group's experimenter map is unloaded. */
  method UnloadOwnerAndGroup(c: ModelObject) returns (failure: Option<Failure>)
    requires DetailsTyped(c) && c.kind != Experimenter && c.kind != ExperimenterGroup
    modifies OwnerGroupTargets(c)
    ensures UnloadedExactly(OwnerGroupTargets(c), old(ContainerOutcome(c, OwnerGroupTargets(c))).0)
    ensures failure == old(ContainerOutcome(c, OwnerGroupTargets(c))).1
  {
    if !c.detailsLoaded || c.owner == null {
      return Some(NoneAttribute);
    }
    c.owner.UnloadDetails();
    if c.group == null {
      return Some(NoneAttribute);
    }
    var group := c.group;
    group.UnloadDetails();
    if !group.groupExperimenterMap.Loaded? {
      return Some(UnloadedEntity);
    }
    UnloadChildren(group.groupExperimenterMap.items);
    failure := None;
  }

  /** `ProjectDocument.encode_project`: unload owner, group and experimenters,
      then each linked dataset and its annotations (only when the dataset links
      are loaded and non-empty), then the project's annotations, and call the
      structural encoder. */
  method EncodeProject(p: ModelObject, encode: StructuralEncoder) returns (r: Result<Doc, Failure>)
    requires p.kind == Project && DetailsTyped(p)
    modifies ProjectTargets(p)
    ensures UnloadedExactly(ProjectTargets(p), old(ContainerOutcome(p, ProjectTargets(p))).0)
    ensures r.Err? <==> old(ContainerOutcome(p, ProjectTargets(p))).1.Some?
    ensures r.Err? ==> Some(r.error) == old(ContainerOutcome(p, ProjectTargets(p))).1
    ensures r.Ok? ==> r.value == encode(p, LoadedIn(ProjectTargets(p))) && LoadedIn(ProjectTargets(p)) == {}
  {
    OwnerGroupAllocated(p);
    AnnotationTargetsAllocated(p);
    if p.datasetLinks.Loaded? {
      EachWithAnnotationsAllocated(Children(p.datasetLinks.items));
    }
    var failure := UnloadOwnerAndGroup(p);
    if failure.Some? {
      return Err(failure.value);
    }
    if p.datasetLinks.Loaded? && |p.datasetLinks.items| > 0 {
      UnloadEachWithAnnotations(Children(p.datasetLinks.items));
    }
    UnloadAnnotationDetails(p);
    r := Ok(encode(p, LoadedIn(ProjectTargets(p))));
    NothingLoadedIn(ProjectTargets(p));
  }

  /** `PlateDocument.encode_plate`: as `encode_project`, with the screens the
      plate is linked from (the parents of its screen links). */
  method EncodePlate(p: ModelObject, encode: StructuralEncoder) returns (r: Result<Doc, Failure>)
    requires p.kind == Plate && DetailsTyped(p)
    modifies PlateTargets(p)
    ensures UnloadedExactly(PlateTargets(p), old(ContainerOutcome(p, PlateTargets(p))).0)
    ensures r.Err? <==> old(ContainerOutcome(p, PlateTargets(p))).1.Some?
    ensures r.Err? ==> Some(r.error) == old(ContainerOutcome(p, PlateTargets(p))).1
    ensures r.Ok? ==> r.value == encode(p, LoadedIn(PlateTargets(p))) && LoadedIn(PlateTargets(p)) == {}
  {
    OwnerGroupAllocated(p);
    AnnotationTargetsAllocated(p);
    if p.screenLinks.Loaded? {
      EachWithAnnotationsAllocated(Parents(p.screenLinks.items));
    }
    var failure := UnloadOwnerAndGroup(p);
    if failure.Some? {
      return Err(failure.value);
    }
    if p.screenLinks.Loaded? && |p.screenLinks.items| > 0 {
      UnloadEachWithAnnotations(Parents(p.screenLinks.items));
    }
    UnloadAnnotationDetails(p);
    r := Ok(encode(p, LoadedIn(PlateTargets(p))));
    NothingLoadedIn(PlateTargets(p));
  }

  lemma SampleTargetsAllocated(s: ModelObject)
    ensures forall x :: x in SampleTargets(s) ==> allocated(x)
  {
    if s.image != null && s.image.loaded {
      AnnotationTargetsAllocated(s.image);
      if s.image.pixels.LoadedNonEmpty() && s.image.pixels.items[0].channels.Loaded? {
        EachWithAnnotationsAllocated(s.image.pixels.items[0].channels.items);
      }
    }
  }

  lemma ImageTargetsAllocated(img: ModelObject)
    ensures forall x :: x in ImageTargets(img) ==> allocated(x)
  {
    AnnotationTargetsAllocated(img);
    if img.pixels.LoadedNonEmpty() && img.pixels.items[0].channels.LoadedNonEmpty() {
      EachWithAnnotationsAllocated(img.pixels.items[0].channels.items);
    }
  }

  lemma WellTargetsAllocated(w: ModelObject)
    ensures forall x :: x in WellTargets(w) ==> allocated(x)
  {
    AnnotationTargetsAllocated(w);
    if w.wellSamples.Loaded? {
      forall i | 0 <= i < |w.wellSamples.items|
        ensures forall x :: x in SampleTargets(w.wellSamples.items[i]) ==> allocated(x)
      {
        SampleTargetsAllocated(w.wellSamples.items[i]);
      }
      UnionAllocated(w.wellSamples.items, SampleTargets);
    }
  }

  /** One more sample step after a run that has not failed. */
  lemma SamplesRunStep(xs: seq<ModelObject>, i: nat)
    requires i < |xs| && !SamplesRun(xs[..i]).1
    ensures SamplesRun(xs[..i + 1]) == (SamplesRun(xs[..i]).0 + SampleTargets(xs[i]), SampleFails(xs[i]))
  {
    assert xs[..i + 1][..i] == xs[..i];
  }

  /** Once a sample has failed, the later samples change nothing. */
  lemma {:induction false} SamplesRunSticky(xs: seq<ModelObject>, k: nat)
    requires k <= |xs| && SamplesRun(xs[..k]).1
    ensures SamplesRun(xs) == SamplesRun(xs[..k])
    decreases |xs| - k
  {
    if k < |xs| {
      assert xs[..k + 1][..k] == xs[..k];
      SamplesRunSticky(xs, k + 1);
    } else {
      assert xs[..k] == xs;
    }
  }

  /** A run in which no sample fails unloads every sample's targets. */
  lemma {:induction false} SamplesRunComplete(xs: seq<ModelObject>)
    requires !SamplesRun(xs).1
    ensures SamplesRun(xs).0 == UnionOf(xs, SampleTargets)
  {
    if xs != [] {
      SamplesRunComplete(xs[..|xs| - 1]);
    }
  }

  /** One iteration of the well-sample loop of `encode_well`: unload the
      sample; when its image is present and loaded, the image and its
      annotations; when the image's pixels are loaded, the primary pixels (with
      no size check, so a loaded-empty list raises) and, when loaded, each
      channel with its annotations. */
  method PruneWellSample(s: ModelObject) returns (failure: Option<Failure>)
    modifies SampleTargets(s)
    ensures forall x :: x in SampleTargets(s) ==> !x.detailsLoaded
    ensures failure == if SampleFails(s) then Some(IndexOutOfRange) else None
  {
    SampleTargetsAllocated(s);
    s.UnloadDetails();
    var img := s.image;
    if img != null && img.loaded {
      img.UnloadDetails();
      UnloadAnnotationDetails(img);
      if img.pixels.Loaded? {
        var primary := PrimaryPixels(img);
        if primary.Err? {
          return Some(primary.error);
        }
        var pixels := primary.value;
        pixels.UnloadDetails();
        if pixels.channels.Loaded? {
          UnloadEachWithAnnotations(pixels.channels.items);
        }
      }
    }
    failure := None;
  }

  /** `WellDocument.encode_well`: unload the well's own details, prune each
      well sample in order, then the well's annotations, and call the
      structural encoder. */
  method EncodeWell(w: ModelObject, encode: StructuralEncoder) returns (r: Result<Doc, Failure>)
    modifies WellTargets(w)
    ensures UnloadedExactly(WellTargets(w), WellOutcome(w).0)
    ensures r.Err? <==> WellOutcome(w).1.Some?
    ensures r.Err? ==> Some(r.error) == WellOutcome(w).1
    ensures r.Ok? ==> r.value == encode(w, LoadedIn(WellTargets(w))) && LoadedIn(WellTargets(w)) == {}
  {
    WellTargetsAllocated(w);
    w.UnloadDetails();
    if w.wellSamples.Loaded? && |w.wellSamples.items| > 0 {
      var samples := w.wellSamples.items;
      for i := 0 to |samples|
        invariant !SamplesRun(samples[..i]).1
        invariant UnloadedExactly(WellTargets(w), {w} + SamplesRun(samples[..i]).0)
      {
        UnionOfContains(samples, SampleTargets, i);
        var failure := PruneWellSample(samples[i]);
        SamplesRunStep(samples, i);
        if failure.Some? {
          SamplesRunSticky(samples, i + 1);
          return Err(failure.value);
        }
      }
      assert samples[..|samples|] == samples;
      SamplesRunComplete(samples);
    }
    UnloadAnnotationDetails(w);
    r := Ok(encode(w, LoadedIn(WellTargets(w))));
    NothingLoadedIn(WellTargets(w));
  }

  // ---------------------------------------------------------------------------
  // Properties of the target sets

  /** `unload_annotation_details(o)` reaches exactly the children of the
      annotation links, and only when those links are loaded. */
  lemma AnnotationTargetsSpec(o: ModelObject, x: ModelObject)
    ensures x in AnnotationTargets(o) <==>
      o.annotationLinks.Loaded? &&
      exists i :: 0 <= i < |o.annotationLinks.items| && o.annotationLinks.items[i].child == x
  {
    if o.annotationLinks.Loaded? {
      UnionOfMember(o.annotationLinks.items, LinkChild, x);
    }
  }

  lemma AnnotationTargetsKind(o: ModelObject)
    requires AnnotationsTyped(o)
    ensures forall x :: x in AnnotationTargets(o) ==> x.kind == Annotation
  {
    forall x | x in AnnotationTargets(o) ensures x.kind == Annotation {
      AnnotationTargetsSpec(o, x);
    }
  }

  lemma EachWithAnnotationsKinds(xs: seq<ModelObject>, k: Kind)
    requires forall i :: 0 <= i < |xs| ==> xs[i].kind == k && AnnotationsTyped(xs[i])
    ensures forall x :: x in UnionOf(xs, WithAnnotations) ==> (x.kind == k && x in xs) || x.kind == Annotation
  {
    forall x | x in UnionOf(xs, WithAnnotations) ensures (x.kind == k && x in xs) || x.kind == Annotation {
      UnionOfMember(xs, WithAnnotations, x);
      var i :| 0 <= i < |xs| && x in WithAnnotations(xs[i]);
      AnnotationTargetsKind(xs[i]);
    }
  }

  /** `encode_image` keeps the image's own details (they are encoded) and
      unloads only pixels, channels and annotations: the primary pixels only
      when the pixels are loaded and non-empty, channels only when, in
      addition, the channels are loaded and non-empty. */
  lemma ImageTargetsKinds(img: ModelObject)
    requires ImageTyped(img)
    ensures img !in ImageTargets(img)
    ensures forall x :: x in ImageTargets(img) ==> x.kind == Pixels || x.kind == Channel || x.kind == Annotation
    ensures forall x :: x in ImageTargets(img) && x.kind == Pixels ==>
      img.pixels.LoadedNonEmpty() && x == img.pixels.items[0]
    ensures forall x :: x in ImageTargets(img) && x.kind == Channel ==>
      img.pixels.LoadedNonEmpty() && img.pixels.items[0].channels.LoadedNonEmpty() && x in img.pixels.items[0].channels.items
  {
    AnnotationTargetsKind(img);
    if img.pixels.LoadedNonEmpty() {
      var p := img.pixels.items[0];
      assert PixelsTyped(p);
      if p.channels.LoadedNonEmpty() {
        EachWithAnnotationsKinds(p.channels.items, Channel);
      }
    }
  }

  lemma OwnerGroupTargetsKinds(c: ModelObject)
    requires DetailsTyped(c) && GroupTyped(c)
    ensures forall x :: x in OwnerGroupTargets(c) ==> x.kind == Experimenter || x.kind == ExperimenterGroup
  {
    if c.group != null && c.group.groupExperimenterMap.Loaded? {
      var links := c.group.groupExperimenterMap.items;
      forall x | x in UnionOf(links, LinkChild) ensures x.kind == Experimenter {
        UnionOfMember(links, LinkChild, x);
      }
    }
  }

  /** `encode_project` keeps the project's own details and unloads only
      experimenters, the group, datasets and annotations; a dataset only when
      the dataset links are loaded and non-empty, and then exactly the linked
      datasets. */
  lemma ProjectTargetsKinds(p: ModelObject)
    requires ProjectTyped(p)
    ensures p !in ProjectTargets(p)
    ensures forall x :: x in ProjectTargets(p) ==>
      x.kind == Experimenter || x.kind == ExperimenterGroup || x.kind == Dataset || x.kind == Annotation
    ensures forall x :: x in ProjectTargets(p) && x.kind == Dataset ==>
      p.datasetLinks.LoadedNonEmpty() && x in Children(p.datasetLinks.items)
    ensures p.datasetLinks.LoadedNonEmpty() ==>
      forall i :: 0 <= i < |p.datasetLinks.items| ==> p.datasetLinks.items[i].child in ProjectTargets(p)
  {
    OwnerGroupTargetsKinds(p);
    AnnotationTargetsKind(p);
    if p.datasetLinks.LoadedNonEmpty() {
      var ds := Children(p.datasetLinks.items);
      EachWithAnnotationsKinds(ds, Dataset);
      forall i | 0 <= i < |ds| ensures ds[i] in ProjectTargets(p) {
        UnionOfContains(ds, WithAnnotations, i);
      }
    }
  }

  /** `encode_plate` keeps the plate's own details and unloads only
      experimenters, the group, screens and annotations; a screen only when
      the screen links are loaded and non-empty, and then exactly the linking
      screens. */
  lemma PlateTargetsKinds(p: ModelObject)
    requires PlateTyped(p)
    ensures p !in PlateTargets(p)
    ensures forall x :: x in PlateTargets(p) ==>
      x.kind == Experimenter || x.kind == ExperimenterGroup || x.kind == Screen || x.kind == Annotation
    ensures forall x :: x in PlateTargets(p) && x.kind == Screen ==>
      p.screenLinks.LoadedNonEmpty() && x in Parents(p.screenLinks.items)
    ensures p.screenLinks.LoadedNonEmpty() ==>
      forall i :: 0 <= i < |p.screenLinks.items| ==> p.screenLinks.items[i].parent in PlateTargets(p)
  {
    OwnerGroupTargetsKinds(p);
    AnnotationTargetsKind(p);
    if p.screenLinks.LoadedNonEmpty() {
      var ss := Parents(p.screenLinks.items);
      EachWithAnnotationsKinds(ss, Screen);
      forall i | 0 <= i < |ss| ensures ss[i] in PlateTargets(p) {
        UnionOfContains(ss, WithAnnotations, i);
      }
    }
  }

  /** The sample run fails exactly when some sample fails. */
  lemma {:induction false} SamplesRunFails(xs: seq<ModelObject>)
    ensures SamplesRun(xs).1 <==> exists i :: 0 <= i < |xs| && SampleFails(xs[i])
  {
    if xs != [] {
      var init := xs[..|xs| - 1];
      SamplesRunFails(init);
      if exists i :: 0 <= i < |init| && SampleFails(init[i]) {
        var i :| 0 <= i < |init| && SampleFails(init[i]);
        assert SampleFails(xs[i]);
      }
      if exists i :: 0 <= i < |xs| && SampleFails(xs[i]) {
        var i :| 0 <= i < |xs| && SampleFails(xs[i]);
        if i < |xs| - 1 {
          assert SampleFails(init[i]);
        }
      }
    }
  }

  /** When sample `k` is the first to fail, the run unloads the targets of
      samples `0..k` (the failing one up to its failure) and no later ones. */
  lemma SamplesRunFirstFailure(xs: seq<ModelObject>, k: nat)
    requires k < |xs| && SampleFails(xs[k])
    requires forall j :: 0 <= j < k ==> !SampleFails(xs[j])
    ensures SamplesRun(xs) == (UnionOf(xs[..k + 1], SampleTargets), true)
  {
    SamplesRunFails(xs[..k]);
    SamplesRunComplete(xs[..k]);
    SamplesRunStep(xs, k);
    UnionOfStep(xs, k, SampleTargets);
    SamplesRunSticky(xs, k + 1);
  }

  /** `encode_well` raises exactly when its samples are loaded and one of them
      has a loaded image with a loaded but empty pixels list; otherwise it
      unloads the well, every sample's targets and the well's annotations. */
  lemma WellOutcomeSpec(w: ModelObject)
    ensures WellOutcome(w).1.Some? <==>
      w.wellSamples.Loaded? && exists i :: 0 <= i < |w.wellSamples.items| && SampleFails(w.wellSamples.items[i])
    ensures WellOutcome(w).1.None? ==> w in WellOutcome(w).0 && AnnotationTargets(w) <= WellOutcome(w).0
  {
    if w.wellSamples.Loaded? {
      SamplesRunFails(w.wellSamples.items);
    }
  }
}
