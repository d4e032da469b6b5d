/** The objects the query service can hand out, closed under the
    relationships the pruning passes follow: the frame of every pass. */
module World {
  import opened Values
  import opened ObjectGraph
  import opened Pruning
  import opened Paging
  import opened Documents

  function LinkEnds(r: Rel<Link>): set<ModelObject>
  {
    if r.Loaded? then (set l | l in r.items :: l.parent) + (set l | l in r.items :: l.child) else {}
  }

  function Members(r: Rel<ModelObject>): set<ModelObject>
  {
    if r.Loaded? then set x | x in r.items else {}
  }

  /** Every object `o` refers to. */
  function Neighbours(o: ModelObject): set<ModelObject>
  {
    (if o.owner != null then {o.owner} else {})
    + (if o.group != null then {o.group} else {})
    + (if o.image != null then {o.image} else {})
    + LinkEnds(o.annotationLinks) + LinkEnds(o.datasetLinks) + LinkEnds(o.imageLinks)
    + LinkEnds(o.screenLinks) + LinkEnds(o.groupExperimenterMap)
    + Members(o.pixels) + Members(o.channels) + Members(o.wells) + Members(o.wellSamples)
  }

  /** `world` holds everything its objects refer to. */
  ghost predicate Closed(world: set<ModelObject>)
  {
    forall o {:trigger Neighbours(o)} :: o in world ==> Neighbours(o) <= world
  }

  /** Every page the paged query returns is made of objects of `world` of
      the class it asks for: `kind` is Image for the images of a dataset and
      Well for the wells of a plate. */
  ghost predicate Serves(fetch: (int, nat) -> seq<ModelObject>, world: set<ModelObject>, kind: Kind)
  {
    forall parent: int, off: nat, x :: x in fetch(parent, off) ==> x in world && x.kind == kind
  }

  /** The members of a group are experimenters. */
  predicate ExperimentersTyped(o: ModelObject)
  {
    o.groupExperimenterMap.Loaded? ==>
      forall i :: 0 <= i < |o.groupExperimenterMap.items| ==> o.groupExperimenterMap.items[i].child.kind == Experimenter
  }

  /** The classes OMERO gives the objects `o` refers to through the
      relationships the pruning passes follow. */
  predicate RefsTyped(o: ModelObject)
  {
    && DetailsTyped(o)
    && AnnotationsTyped(o)
    && ExperimentersTyped(o)
    && (o.kind == Project && o.datasetLinks.Loaded? ==>
          forall i :: 0 <= i < |o.datasetLinks.items| ==> o.datasetLinks.items[i].child.kind == Dataset)
    && (o.kind == Plate && o.screenLinks.Loaded? ==>
          forall i :: 0 <= i < |o.screenLinks.items| ==> o.screenLinks.items[i].parent.kind == Screen)
    && (o.pixels.Loaded? ==> forall i :: 0 <= i < |o.pixels.items| ==> o.pixels.items[i].kind == Pixels)
    && (o.channels.Loaded? ==> forall i :: 0 <= i < |o.channels.items| ==> o.channels.items[i].kind == Channel)
    && (o.wells.Loaded? ==> forall i :: 0 <= i < |o.wells.items| ==> o.wells.items[i].kind == Well)
    && (o.wellSamples.Loaded? ==> forall i :: 0 <= i < |o.wellSamples.items| ==> o.wellSamples.items[i].kind == WellSample)
    && (o.image != null ==> o.image.kind == Image)
  }

  /** Every object of `world` refers to objects of the classes OMERO gives them. */
  ghost predicate Typed(world: set<ModelObject>)
  {
    forall o {:trigger RefsTyped(o)} :: o in world ==> RefsTyped(o)
  }

  /** The parents the drivers loop over: their own details are encoded. */
  predicate Container(o: ModelObject)
  {
    o.kind == Project || o.kind == Plate
  }

  ghost predicate NoContainer(s: set<ModelObject>)
  {
    forall x :: x in s ==> !Container(x)
  }

  /** The objects of `world` other than projects and plates: every pass stays
      within them, so no parent's details change while it is indexed. */
  function Parts(world: set<ModelObject>): set<ModelObject>
  {
    set o | o in world && !Container(o)
  }

  lemma UnionWithin<T>(xs: seq<T>, f: T -> set<ModelObject>, world: set<ModelObject>)
    requires forall i :: 0 <= i < |xs| ==> f(xs[i]) <= world
    ensures UnionOf(xs, f) <= world
  {
    forall x | x in UnionOf(xs, f) ensures x in world {
      UnionOfMember(xs, f, x);
    }
  }

  lemma AnnotationTargetsWithin(o: ModelObject, world: set<ModelObject>)
    requires Closed(world) && o in world
    ensures AnnotationTargets(o) <= world
  {
    forall x | x in AnnotationTargets(o) ensures x in world {
      AnnotationTargetsSpec(o, x);
      var i :| 0 <= i < |o.annotationLinks.items| && o.annotationLinks.items[i].child == x;
      assert o.annotationLinks.items[i] in o.annotationLinks.items;
      assert x in Neighbours(o);
    }
  }

  lemma EachWithAnnotationsWithin(xs: seq<ModelObject>, world: set<ModelObject>)
    requires Closed(world) && forall i :: 0 <= i < |xs| ==> xs[i] in world
    ensures UnionOf(xs, WithAnnotations) <= world
  {
    forall i | 0 <= i < |xs| ensures WithAnnotations(xs[i]) <= world {
      AnnotationTargetsWithin(xs[i], world);
    }
    UnionWithin(xs, WithAnnotations, world);
  }

  lemma ImageTargetsWithin(img: ModelObject, world: set<ModelObject>)
    requires Closed(world) && img in world
    ensures ImageTargets(img) <= world
  {
    AnnotationTargetsWithin(img, world);
    if img.pixels.LoadedNonEmpty() {
      var p := img.pixels.items[0];
      PrimaryPixelsWithin(img, world);
      if p.channels.LoadedNonEmpty() {
        ChannelsWithin(p, world);
        EachWithAnnotationsWithin(p.channels.items, world);
      }
    }
  }

  lemma OwnerGroupTargetsWithin(c: ModelObject, world: set<ModelObject>)
    requires Closed(world) && c in world
    ensures OwnerGroupTargets(c) <= world
  {
    assert Neighbours(c) <= world;
    if c.group != null && c.group.groupExperimenterMap.Loaded? {
      var links := c.group.groupExperimenterMap.items;
      assert Neighbours(c.group) <= world;
      forall i | 0 <= i < |links| ensures LinkChild(links[i]) <= world {
        assert links[i] in links;
      }
      UnionWithin(links, LinkChild, world);
    }
  }

  lemma ProjectTargetsWithin(p: ModelObject, world: set<ModelObject>)
    requires Closed(world) && p in world
    ensures ProjectTargets(p) <= world
  {
    OwnerGroupTargetsWithin(p, world);
    AnnotationTargetsWithin(p, world);
    if p.datasetLinks.LoadedNonEmpty() {
      var ds := Children(p.datasetLinks.items);
      forall i | 0 <= i < |ds| ensures ds[i] in world {
        assert p.datasetLinks.items[i] in p.datasetLinks.items;
        assert ds[i] in Neighbours(p);
      }
      EachWithAnnotationsWithin(ds, world);
    }
  }

  lemma PlateTargetsWithin(p: ModelObject, world: set<ModelObject>)
    requires Closed(world) && p in world
    ensures PlateTargets(p) <= world
  {
    OwnerGroupTargetsWithin(p, world);
    AnnotationTargetsWithin(p, world);
    if p.screenLinks.LoadedNonEmpty() {
      var ss := Parents(p.screenLinks.items);
      forall i | 0 <= i < |ss| ensures ss[i] in world {
        assert p.screenLinks.items[i] in p.screenLinks.items;
        assert ss[i] in Neighbours(p);
      }
      EachWithAnnotationsWithin(ss, world);
    }
  }

  lemma ImageWithin(s: ModelObject, world: set<ModelObject>)
    requires Closed(world) && s in world && s.image != null
    ensures s.image in world
  {
    assert s.image in Neighbours(s);
  }

  lemma PrimaryPixelsWithin(img: ModelObject, world: set<ModelObject>)
    requires Closed(world) && img in world && img.pixels.LoadedNonEmpty()
    ensures img.pixels.items[0] in world
  {
    assert img.pixels.items[0] in Members(img.pixels);
    assert img.pixels.items[0] in Neighbours(img);
  }

  lemma ChannelsWithin(p: ModelObject, world: set<ModelObject>)
    requires Closed(world) && p in world && p.channels.Loaded?
    ensures forall i :: 0 <= i < |p.channels.items| ==> p.channels.items[i] in world
  {
    assert Members(p.channels) <= Neighbours(p);
  }

  lemma SampleTargetsWithin(s: ModelObject, world: set<ModelObject>)
    requires Closed(world) && s in world
    ensures SampleTargets(s) <= world
  {
    if s.image != null && s.image.loaded {
      var img := s.image;
      ImageWithin(s, world);
      AnnotationTargetsWithin(img, world);
      if img.pixels.LoadedNonEmpty() {
        var p := img.pixels.items[0];
        PrimaryPixelsWithin(img, world);
        if p.channels.Loaded? {
          ChannelsWithin(p, world);
          EachWithAnnotationsWithin(p.channels.items, world);
        }
      }
    }
  }

  lemma WellTargetsWithin(w: ModelObject, world: set<ModelObject>)
    requires Closed(world) && w in world
    ensures WellTargets(w) <= world
  {
    AnnotationTargetsWithin(w, world);
    if w.wellSamples.LoadedNonEmpty() {
      var samples := w.wellSamples.items;
      forall i | 0 <= i < |samples| ensures SampleTargets(samples[i]) <= world {
        assert samples[i] in Neighbours(w);
        SampleTargetsWithin(samples[i], world);
      }
      UnionWithin(samples, SampleTargets, world);
    }
  }

  lemma {:induction false} ConcatWithin(pages: seq<seq<ModelObject>>, world: set<ModelObject>)
    requires forall k, x :: 0 <= k < |pages| && x in pages[k] ==> x in world
    ensures forall x :: x in Concat(pages) ==> x in world
  {
    if pages != [] {
      ConcatWithin(pages[1..], world);
    }
  }

  lemma PagesWithin(fetch: (int, nat) -> seq<ModelObject>, parent: int, bound: nat, world: set<ModelObject>, kind: Kind)
    requires ShortBeyond(fetch, parent, bound) && Serves(fetch, world, kind)
    ensures forall x :: x in Concat(Pages(fetch, parent, 0, bound)) ==> x in world
  {
    ConcatWithin(Pages(fetch, parent, 0, bound), world);
  }

  lemma {:induction false} GatedPagesWithin(ids: seq<int>, counts: map<int, int>, fetch: (int, nat) -> seq<ModelObject>, bound: nat, world: set<ModelObject>)
    requires AllShortBeyond(fetch, bound) && Serves(fetch, world, Image)
    ensures forall x :: x in GatedPages(ids, counts, fetch, bound).1 ==> x in world
  {
    if ids != [] {
      GatedPagesWithin(ids[..|ids| - 1], counts, fetch, bound, world);
      PagesWithin(fetch, ids[|ids| - 1], bound, world, Image);
    }
  }

  lemma ProjectImagesWithin(p: ModelObject, countsOf: int -> map<int, int>, fetch: (int, nat) -> seq<ModelObject>, bound: nat, world: set<ModelObject>)
    requires AllShortBeyond(fetch, bound) && Serves(fetch, world, Image) && Closed(world) && p in world
    ensures forall x :: x in ProjectImages(p, countsOf, fetch, bound).0 ==> x in world
  {
    match InMemoryImages(p)
    case Ok(images) =>
      var datasets := Children(p.datasetLinks.items);
      ImageListsSpec(datasets);
      forall x | x in images ensures x in world {
        var i, j :| 0 <= i < |datasets| && 0 <= j < |datasets[i].imageLinks.items| && datasets[i].imageLinks.items[j].child == x;
        assert p.datasetLinks.items[i] in p.datasetLinks.items;
        assert datasets[i] in Neighbours(p);
        assert datasets[i].imageLinks.items[j] in datasets[i].imageLinks.items;
        assert x in Neighbours(datasets[i]);
      }
    case Err(_) =>
      if p.datasetLinks.Loaded? {
        GatedPagesWithin(Ids(Children(p.datasetLinks.items)), countsOf(p.id), fetch, bound, world);
      }
  }

  lemma PlateWellsWithin(plate: ModelObject, fetch: (int, nat) -> seq<ModelObject>, bound: nat, world: set<ModelObject>)
    requires ShortBeyond(fetch, plate.id, bound) && Serves(fetch, world, Well) && Closed(world) && plate in world
    ensures forall x :: x in PlateWells(plate, fetch, bound) ==> x in world
  {
    if plate.wells.Loaded? {
      assert Members(plate.wells) <= Neighbours(plate);
    } else {
      PagesWithin(fetch, plate.id, bound, world, Well);
    }
  }

  // ---------------------------------------------------------------------------
  // No pass reaches a project or a plate

  lemma AnnotationTargetsFree(o: ModelObject)
    requires RefsTyped(o)
    ensures NoContainer(AnnotationTargets(o))
  {
    AnnotationTargetsKind(o);
  }

  lemma EachWithAnnotationsFree(xs: seq<ModelObject>, world: set<ModelObject>)
    requires Typed(world)
    requires forall i :: 0 <= i < |xs| ==> xs[i] in world && !Container(xs[i])
    ensures NoContainer(UnionOf(xs, WithAnnotations))
  {
    forall x | x in UnionOf(xs, WithAnnotations) ensures !Container(x) {
      UnionOfMember(xs, WithAnnotations, x);
      var i :| 0 <= i < |xs| && x in WithAnnotations(xs[i]);
      AnnotationTargetsFree(xs[i]);
    }
  }

  lemma ImageTargetsFree(img: ModelObject, world: set<ModelObject>)
    requires Closed(world) && Typed(world) && img in world
    ensures NoContainer(ImageTargets(img))
  {
    AnnotationTargetsFree(img);
    if img.pixels.LoadedNonEmpty() {
      var p := img.pixels.items[0];
      PrimaryPixelsWithin(img, world);
      if p.channels.LoadedNonEmpty() {
        ChannelsWithin(p, world);
        assert RefsTyped(p);
        EachWithAnnotationsFree(p.channels.items, world);
      }
    }
  }

  lemma GroupWithin(c: ModelObject, world: set<ModelObject>)
    requires Closed(world) && c in world && c.group != null
    ensures c.group in world
  {
    assert c.group in Neighbours(c);
  }

  lemma OwnerGroupTargetsFree(c: ModelObject, world: set<ModelObject>)
    requires Closed(world) && Typed(world) && c in world
    ensures NoContainer(OwnerGroupTargets(c))
  {
    assert DetailsTyped(c) by { assert RefsTyped(c); }
    if c.group != null && c.group.groupExperimenterMap.Loaded? {
      var links := c.group.groupExperimenterMap.items;
      GroupWithin(c, world);
      assert ExperimentersTyped(c.group) by { assert RefsTyped(c.group); }
      forall x | x in UnionOf(links, LinkChild) ensures !Container(x) {
        UnionOfMember(links, LinkChild, x);
        var i :| 0 <= i < |links| && x in LinkChild(links[i]);
        assert x == links[i].child;
      }
    }
  }

  lemma ProjectTargetsFree(p: ModelObject, world: set<ModelObject>)
    requires Closed(world) && Typed(world) && p in world && p.kind == Project
    ensures NoContainer(ProjectTargets(p))
  {
    OwnerGroupTargetsFree(p, world);
    AnnotationTargetsFree(p);
    if p.datasetLinks.LoadedNonEmpty() {
      var ds := Children(p.datasetLinks.items);
      forall i | 0 <= i < |ds| ensures ds[i] in world && !Container(ds[i]) {
        assert p.datasetLinks.items[i] in p.datasetLinks.items;
        assert ds[i] in Neighbours(p);
      }
      EachWithAnnotationsFree(ds, world);
    }
  }

  lemma PlateTargetsFree(p: ModelObject, world: set<ModelObject>)
    requires Closed(world) && Typed(world) && p in world && p.kind == Plate
    ensures NoContainer(PlateTargets(p))
  {
    OwnerGroupTargetsFree(p, world);
    AnnotationTargetsFree(p);
    if p.screenLinks.LoadedNonEmpty() {
      var ss := Parents(p.screenLinks.items);
      forall i | 0 <= i < |ss| ensures ss[i] in world && !Container(ss[i]) {
        assert p.screenLinks.items[i] in p.screenLinks.items;
        assert ss[i] in Neighbours(p);
      }
      EachWithAnnotationsFree(ss, world);
    }
  }

  lemma SampleTargetsFree(s: ModelObject, world: set<ModelObject>)
    requires Closed(world) && Typed(world) && s in world && !Container(s)
    ensures NoContainer(SampleTargets(s))
  {
    if s.image != null && s.image.loaded {
      var img := s.image;
      ImageWithin(s, world);
      assert RefsTyped(s);
      AnnotationTargetsFree(img);
      if img.pixels.LoadedNonEmpty() {
        var p := img.pixels.items[0];
        PrimaryPixelsWithin(img, world);
        if p.channels.Loaded? {
          ChannelsWithin(p, world);
          assert RefsTyped(p);
          EachWithAnnotationsFree(p.channels.items, world);
        }
      }
    }
  }

  lemma WellTargetsFree(w: ModelObject, world: set<ModelObject>)
    requires Closed(world) && Typed(world) && w in world && !Container(w)
    ensures NoContainer(WellTargets(w))
  {
    AnnotationTargetsFree(w);
    if w.wellSamples.LoadedNonEmpty() {
      var samples := w.wellSamples.items;
      forall x | x in UnionOf(samples, SampleTargets) ensures !Container(x) {
        UnionOfMember(samples, SampleTargets, x);
        var i :| 0 <= i < |samples| && x in SampleTargets(samples[i]);
        assert samples[i] in Neighbours(w);
        SampleTargetsFree(samples[i], world);
      }
    }
  }

  lemma ImagesFree(images: seq<ModelObject>, world: set<ModelObject>)
    requires Closed(world) && Typed(world) && forall x :: x in images ==> x in world
    ensures NoContainer(UnionOf(images, ImageTargets))
  {
    forall x | x in UnionOf(images, ImageTargets) ensures !Container(x) {
      UnionOfMember(images, ImageTargets, x);
      var i :| 0 <= i < |images| && x in ImageTargets(images[i]);
      ImageTargetsFree(images[i], world);
    }
  }

  lemma WellsFree(wells: seq<ModelObject>, world: set<ModelObject>)
    requires Closed(world) && Typed(world) && forall x :: x in wells ==> x in world && !Container(x)
    ensures NoContainer(UnionOf(wells, WellTargets))
  {
    forall x | x in UnionOf(wells, WellTargets) ensures !Container(x) {
      UnionOfMember(wells, WellTargets, x);
      var i :| 0 <= i < |wells| && x in WellTargets(wells[i]);
      WellTargetsFree(wells[i], world);
    }
  }

  /** The wells of a plate are never projects or plates. */
  lemma PlateWellsFree(plate: ModelObject, fetch: (int, nat) -> seq<ModelObject>, bound: nat, world: set<ModelObject>)
    requires ShortBeyond(fetch, plate.id, bound) && Serves(fetch, world, Well) && Closed(world) && Typed(world) && plate in world
    ensures forall x :: x in PlateWells(plate, fetch, bound) ==> x in world && !Container(x)
  {
    PlateWellsWithin(plate, fetch, bound, world);
    if plate.wells.Loaded? {
      assert RefsTyped(plate);
    } else {
      var pages := Pages(fetch, plate.id, 0, bound);
      ConcatKinds(pages);
      forall x | x in Concat(pages) ensures !Container(x) {
        var k :| 0 <= k < |pages| && x in pages[k];
        assert pages[k] == fetch(plate.id, 0 + k * PageSize);
      }
    }
  }

  lemma {:induction false} ConcatKinds(pages: seq<seq<ModelObject>>)
    ensures forall x :: x in Concat(pages) ==> exists k :: 0 <= k < |pages| && x in pages[k]
  {
    if pages != [] {
      ConcatKinds(pages[1..]);
      forall x | x in Concat(pages) ensures exists k :: 0 <= k < |pages| && x in pages[k] {
        if x !in pages[0] {
          assert Concat(pages) == pages[0] + Concat(pages[1..]);
          assert x in Concat(pages[1..]);
          var k :| 0 <= k < |pages[1..]| && x in pages[1..][k];
          assert x in pages[k + 1];
        }
      }
    }
  }
}
