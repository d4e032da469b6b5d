/** The OMERO object graph as the indexer sees it: model objects whose
    relationships are each unloaded, loaded-empty or loaded-populated, and whose
    details (owner and group) can be detached with `unloadDetails`. */
module ObjectGraph {
  import opened Values

  /** The model classes the indexer touches. */
  datatype Kind =
    | Project | Dataset | Image | Pixels | Channel
    | Screen | Plate | Well | WellSample
    | Annotation | Experimenter | ExperimenterGroup

  /** What an access to the graph can raise. */
  datatype Failure =
    | UnloadedEntity      // omero.UnloadedEntityException from copyX() / linkedXList()
    | NoneAttribute       // AttributeError: an attribute of None (missing details, owner or group)
    | IndexOutOfRange     // IndexError: getPrimaryPixels() on a loaded but empty pixels list

  /** Load state of a relationship: `Unloaded`, loaded-empty (`Loaded([])`) or
      loaded-populated (`Loaded` with at least one element). */
  datatype Rel<+T> = Unloaded | Loaded(items: seq<T>)
  {
    /** `isXLoaded() and sizeOfX() > 0` */
    predicate LoadedNonEmpty() { Loaded? && |items| > 0 }

    /** `copyX()`: a copy of the elements, or UnloadedEntityException. */
    function Copy(): (r: Result<seq<T>, Failure>)
      ensures r.Ok? <==> Loaded?
      ensures r.Ok? ==> r.value == items
      ensures r.Err? ==> r.error == UnloadedEntity
    {
      if Loaded? then Ok(items) else Err(UnloadedEntity)
    }
  }

  /** A link object (ProjectDatasetLink, DatasetImageLink, ...). */
  datatype Link = Link(parent: ModelObject, child: ModelObject)

  /** One OMERO model object. Only the details are ever changed by the indexer;
      every relationship keeps the load state the query gave it. */
  class ModelObject {
    const id: int
    const kind: Kind
    /** `isLoaded()`: false for an unloaded proxy that only carries its id. */
    const loaded: bool
    /** False once `unloadDetails()` has run. */
    var detailsLoaded: bool
    /** `details.owner` and `details.group`, reachable only while the details are loaded. */
    const owner: ModelObject?
    const group: ModelObject?
    const annotationLinks: Rel<Link>
    const datasetLinks: Rel<Link>
    const imageLinks: Rel<Link>
    const screenLinks: Rel<Link>
    const groupExperimenterMap: Rel<Link>
    const pixels: Rel<ModelObject>
    const channels: Rel<ModelObject>
    const wells: Rel<ModelObject>
    const wellSamples: Rel<ModelObject>
    /** `WellSample.image`, possibly None. */
    const image: ModelObject?

    /** `unloadDetails()` */
    method UnloadDetails()
      modifies this
      ensures !detailsLoaded
    {
      detailsLoaded := false;
    }
  }

  /** The children of a list of links, in link order. */
  function Children(links: seq<Link>): (r: seq<ModelObject>)
    ensures |r| == |links|
    ensures forall i :: 0 <= i < |links| ==> r[i] == links[i].child
  {
    seq(|links|, i requires 0 <= i < |links| => links[i].child)
  }

  /** The parents of a list of links, in link order. */
  function Parents(links: seq<Link>): (r: seq<ModelObject>)
    ensures |r| == |links|
    ensures forall i :: 0 <= i < |links| ==> r[i] == links[i].parent
  {
    seq(|links|, i requires 0 <= i < |links| => links[i].parent)
  }

  /** `Project.linkedDatasetList()`: the datasets of the dataset links. */
  function LinkedDatasetList(p: ModelObject): (r: Result<seq<ModelObject>, Failure>)
    ensures r.Ok? <==> p.datasetLinks.Loaded?
    ensures r.Ok? ==> r.value == Children(p.datasetLinks.items)
  {
    if p.datasetLinks.Loaded? then Ok(Children(p.datasetLinks.items)) else Err(UnloadedEntity)
  }

  /** `Dataset.linkedImageList()`: the images of the image links. */
  function LinkedImageList(d: ModelObject): (r: Result<seq<ModelObject>, Failure>)
    ensures r.Ok? <==> d.imageLinks.Loaded?
    ensures r.Ok? ==> r.value == Children(d.imageLinks.items)
  {
    if d.imageLinks.Loaded? then Ok(Children(d.imageLinks.items)) else Err(UnloadedEntity)
  }

  /** `Image.getPrimaryPixels()`: the first pixels set. */
  function PrimaryPixels(img: ModelObject): (r: Result<ModelObject, Failure>)
    ensures r.Ok? <==> img.pixels.LoadedNonEmpty()
    ensures r.Ok? ==> r.value == img.pixels.items[0]
    ensures img.pixels == Loaded([]) ==> r == Err(IndexOutOfRange)
  {
    match img.pixels
    case Unloaded => Err(UnloadedEntity)
    case Loaded(ps) => if |ps| == 0 then Err(IndexOutOfRange) else Ok(ps[0])
  }

  /** Every loaded annotation link of `o` points to an annotation. */
  predicate AnnotationsTyped(o: ModelObject)
  {
    o.annotationLinks.Loaded? ==>
      forall i :: 0 <= i < |o.annotationLinks.items| ==> o.annotationLinks.items[i].child.kind == Annotation
  }

  /** The owner and group of `o` have the classes OMERO gives them. */
  predicate DetailsTyped(o: ModelObject)
  {
    && (o.owner != null ==> o.owner.kind == Experimenter)
    && (o.group != null ==> o.group.kind == ExperimenterGroup)
  }

  /** A channel with its annotations typed. */
  predicate ChannelTyped(c: ModelObject)
  {
    c.kind == Channel && AnnotationsTyped(c)
  }

  /** A pixels set whose loaded channels are channels. */
  predicate PixelsTyped(p: ModelObject)
  {
    && p.kind == Pixels
    && (p.channels.Loaded? ==> forall i :: 0 <= i < |p.channels.items| ==> ChannelTyped(p.channels.items[i]))
  }

  /** An image whose loaded pixels, channels and annotations have their classes. */
  predicate ImageTyped(img: ModelObject)
  {
    && img.kind == Image
    && AnnotationsTyped(img)
    && (img.pixels.Loaded? ==> forall i :: 0 <= i < |img.pixels.items| ==> PixelsTyped(img.pixels.items[i]))
  }

  /** The group's loaded experimenter map points to experimenters. */
  predicate GroupTyped(o: ModelObject)
  {
    o.group != null && o.group.groupExperimenterMap.Loaded? ==>
      forall i :: 0 <= i < |o.group.groupExperimenterMap.items| ==>
        o.group.groupExperimenterMap.items[i].child.kind == Experimenter
  }

  /** A project whose details, dataset links and annotations have their classes. */
  predicate ProjectTyped(p: ModelObject)
  {
    && p.kind == Project
    && DetailsTyped(p) && GroupTyped(p) && AnnotationsTyped(p)
    && (p.datasetLinks.Loaded? ==>
          forall i :: 0 <= i < |p.datasetLinks.items| ==>
            p.datasetLinks.items[i].child.kind == Dataset && AnnotationsTyped(p.datasetLinks.items[i].child))
  }

  /** A plate whose details, screen links and annotations have their classes. */
  predicate PlateTyped(p: ModelObject)
  {
    && p.kind == Plate
    && DetailsTyped(p) && GroupTyped(p) && AnnotationsTyped(p)
    && (p.screenLinks.Loaded? ==>
          forall i :: 0 <= i < |p.screenLinks.items| ==>
            p.screenLinks.items[i].parent.kind == Screen && AnnotationsTyped(p.screenLinks.items[i].parent))
  }
}
