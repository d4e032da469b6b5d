/** The document builders' sources of children: the images of a project (in
    memory, or paged per dataset behind a count gate) and the wells of a plate
    (in memory, or paged), and the documents built from them. */
module Documents {
  import opened Values
  import opened ObjectGraph
  import opened Pruning
  import opened Paging

  /** A request sent to the query service. */
  datatype Query =
    | CountQuery(projectId: int)            // the image counts per dataset of a project
    | PageQuery(parentId: int, offset: nat) // one page of the images of a dataset / wells of a plate

  /** `image_counts_per_dataset.get(dataset_id, 0)` */
  function Count(counts: map<int, int>, id: int): int
  {
    if id in counts then counts[id] else 0
  }

  /** The page requests of the loop for one parent, given how many pages it fetches. */
  function PageQueries(parent: int, n: nat): (qs: seq<Query>)
    ensures |qs| == n
    ensures forall k :: 0 <= k < n ==> qs[k] == PageQuery(parent, k * PageSize)
  {
    seq(n, k requires 0 <= k < n => PageQuery(parent, k * PageSize))
  }

  /** The page requests at the given offsets. */
  function QueriesAt(parent: int, offsets: seq<nat>): (qs: seq<Query>)
    ensures |qs| == |offsets|
    ensures forall k :: 0 <= k < |offsets| ==> qs[k] == PageQuery(parent, offsets[k])
  {
    seq(|offsets|, k requires 0 <= k < |offsets| => PageQuery(parent, offsets[k]))
  }

  /** Every parent's pages end. */
  ghost predicate AllShortBeyond(fetch: (int, nat) -> seq<ModelObject>, bound: nat)
  {
    forall parent :: ShortBeyond(fetch, parent, bound)
  }

  /** The dataset ids in `linkedDatasetList()` order. */
  function Ids(xs: seq<ModelObject>): (r: seq<int>)
    ensures |r| == |xs|
    ensures forall i :: 0 <= i < |xs| ==> r[i] == xs[i].id
  {
    seq(|xs|, i requires 0 <= i < |xs| => xs[i].id)
  }

  /** The requests and images of the dataset loop of `find_images` over `ids`:
      datasets in order, a dataset whose count is missing or below 1 skipped
      without any request. */
  function GatedPages(ids: seq<int>, counts: map<int, int>, fetch: (int, nat) -> seq<ModelObject>, bound: nat): (seq<Query>, seq<ModelObject>)
    requires AllShortBeyond(fetch, bound)
  {
    if ids == [] then ([], [])
    else
      var (qs, xs) := GatedPages(ids[..|ids| - 1], counts, fetch, bound);
      var id := ids[|ids| - 1];
      if Count(counts, id) < 1 then (qs, xs)
      else
        var pages := Pages(fetch, id, 0, bound);
        (qs + PageQueries(id, |pages|), xs + Concat(pages))
  }

  /** One more dataset of the loop of `find_images`. */
  lemma GatedPagesStep(ids: seq<int>, i: nat, counts: map<int, int>, fetch: (int, nat) -> seq<ModelObject>, bound: nat)
    requires AllShortBeyond(fetch, bound) && i < |ids|
    ensures GatedPages(ids[..i + 1], counts, fetch, bound).0 == GatedPages(ids[..i], counts, fetch, bound).0
      + (if Count(counts, ids[i]) < 1 then [] else PageQueries(ids[i], |Pages(fetch, ids[i], 0, bound)|))
    ensures GatedPages(ids[..i + 1], counts, fetch, bound).1 == GatedPages(ids[..i], counts, fetch, bound).1
      + (if Count(counts, ids[i]) < 1 then [] else Concat(Pages(fetch, ids[i], 0, bound)))
  {
    assert ids[..i + 1][..i] == ids[..i];
  }

  /** The paging loop of `find_images` for one dataset: its requests and its images. */
  method FetchDataset(fetch: (int, nat) -> seq<ModelObject>, id: int, ghost bound: nat) returns (requested: seq<Query>, found: seq<ModelObject>)
    requires AllShortBeyond(fetch, bound)
    ensures requested == PageQueries(id, |Pages(fetch, id, 0, bound)|)
    ensures found == Concat(Pages(fetch, id, 0, bound))
  {
    var offsets;
    offsets, found := FetchPages(fetch, id, bound);
    requested := QueriesAt(id, offsets);
  }

  /** `find_images`: the requests it sends, the images it yields and the
      failure it raises. */
  function FoundImages(project: ModelObject, countsOf: int -> map<int, int>, fetch: (int, nat) -> seq<ModelObject>, bound: nat): (seq<Query>, seq<ModelObject>, Option<Failure>)
    requires AllShortBeyond(fetch, bound)
  {
    match LinkedDatasetList(project)
    case Err(f) => ([], [], Some(f))
    case Ok(datasets) =>
      var (qs, xs) := GatedPages(Ids(datasets), countsOf(project.id), fetch, bound);
      ([CountQuery(project.id)] + qs, xs, None)
  }

  /** `ProjectDocument.find_images`: fetch the dataset ids, then the image
      counts once, then page through each dataset that has images. */
  method FindImages(project: ModelObject, countsOf: int -> map<int, int>, fetch: (int, nat) -> seq<ModelObject>, ghost bound: nat)
    returns (queries: seq<Query>, images: seq<ModelObject>, failure: Option<Failure>)
    requires AllShortBeyond(fetch, bound)
    ensures (queries, images, failure) == FoundImages(project, countsOf, fetch, bound)
  {
    var datasets := LinkedDatasetList(project);
    if datasets.Err? {
      return [], [], Some(datasets.error);
    }
    var ids := Ids(datasets.value);
    var counts := countsOf(project.id);
    var requested;
    requested, images := DatasetLoop(ids, counts, fetch, bound);
    queries := [CountQuery(project.id)] + requested;
    failure := None;
  }

  /** The dataset loop of `find_images`: datasets in order, the pages of each
      counted one appended. */
  method DatasetLoop(ids: seq<int>, counts: map<int, int>, fetch: (int, nat) -> seq<ModelObject>, ghost bound: nat)
    returns (queries: seq<Query>, images: seq<ModelObject>)
    requires AllShortBeyond(fetch, bound)
    ensures queries == GatedPages(ids, counts, fetch, bound).0
    ensures images == GatedPages(ids, counts, fetch, bound).1
  {
    queries, images := [], [];
    for i := 0 to |ids|
      invariant queries == GatedPages(ids[..i], counts, fetch, bound).0
      invariant images == GatedPages(ids[..i], counts, fetch, bound).1
    {
      GatedPagesStep(ids, i, counts, fetch, bound);
      var id := ids[i];
      if Count(counts, id) < 1 {
        continue;
      }
      var requested, found := FetchDataset(fetch, id, bound);
      queries := queries + requested;
      images := images + found;
    }
    assert ids[..|ids|] == ids;
  }

  /** Pages are requested only for datasets of the list whose count is at
      least 1, and each such dataset is requested from offset 0. */
  lemma {:induction false} GatedPagesQueries(ids: seq<int>, counts: map<int, int>, fetch: (int, nat) -> seq<ModelObject>, bound: nat)
    requires AllShortBeyond(fetch, bound)
    ensures forall q :: q in GatedPages(ids, counts, fetch, bound).0 ==>
      q.PageQuery? && q.parentId in ids && Count(counts, q.parentId) >= 1
    ensures forall i :: 0 <= i < |ids| && Count(counts, ids[i]) >= 1 ==>
      PageQuery(ids[i], 0) in GatedPages(ids, counts, fetch, bound).0
  {
    if ids != [] {
      var init := ids[..|ids| - 1];
      var id := ids[|ids| - 1];
      GatedPagesQueries(init, counts, fetch, bound);
      if Count(counts, id) >= 1 {
        var pages := Pages(fetch, id, 0, bound);
        assert PageQueries(id, |pages|)[0] == PageQuery(id, 0);
      }
      forall i | 0 <= i < |ids| && Count(counts, ids[i]) >= 1
        ensures PageQuery(ids[i], 0) in GatedPages(ids, counts, fetch, bound).0
      {
        if i < |ids| - 1 {
          assert ids[i] == init[i];
        }
      }
    }
  }

  /** `find_images` raises, with no request sent, exactly when the project's
      dataset links are unloaded; otherwise it sends the count request first
      and only then page requests, and only for the project's datasets whose
      count is at least 1, each of them from offset 0. */
  lemma FindImagesCountGate(project: ModelObject, countsOf: int -> map<int, int>, fetch: (int, nat) -> seq<ModelObject>, bound: nat)
    requires AllShortBeyond(fetch, bound)
    ensures FoundImages(project, countsOf, fetch, bound).2.Some? <==> !project.datasetLinks.Loaded?
    ensures !project.datasetLinks.Loaded? ==> FoundImages(project, countsOf, fetch, bound) == ([], [], Some(UnloadedEntity))
    ensures project.datasetLinks.Loaded? ==>
      var qs := FoundImages(project, countsOf, fetch, bound).0;
      var ids := Ids(Children(project.datasetLinks.items));
      && |qs| >= 1 && qs[0] == CountQuery(project.id)
      && (forall k :: 1 <= k < |qs| ==>
            qs[k].PageQuery? && qs[k].parentId in ids && Count(countsOf(project.id), qs[k].parentId) >= 1)
      && (forall i :: 0 <= i < |ids| && Count(countsOf(project.id), ids[i]) >= 1 ==> PageQuery(ids[i], 0) in qs)
  {
    if project.datasetLinks.Loaded? {
      var ids := Ids(Children(project.datasetLinks.items));
      var qs := FoundImages(project, countsOf, fetch, bound).0;
      var gated := GatedPages(ids, countsOf(project.id), fetch, bound).0;
      GatedPagesQueries(ids, countsOf(project.id), fetch, bound);
      assert qs == [CountQuery(project.id)] + gated;
      forall k | 1 <= k < |qs|
        ensures qs[k].PageQuery? && qs[k].parentId in ids && Count(countsOf(project.id), qs[k].parentId) >= 1
      {
        assert qs[k] == gated[k - 1];
      }
    }
  }

  /** The images of the datasets, in order, whose count is at least 1, each
      dataset contributing the list `lists` gives for it. */
  function CountedImages(ids: seq<int>, counts: map<int, int>, lists: int -> seq<ModelObject>): seq<ModelObject>
  {
    if ids == [] then []
    else
      var id := ids[|ids| - 1];
      CountedImages(ids[..|ids| - 1], counts, lists) + (if Count(counts, id) < 1 then [] else lists(id))
  }

  /** When every dataset's pages come from a stable source, the dataset loop
      yields exactly the images of the counted datasets, dataset by dataset in
      list order. */
  lemma {:induction false} StableGatedPages(ids: seq<int>, counts: map<int, int>, fetch: (int, nat) -> seq<ModelObject>, lists: int -> seq<ModelObject>, bound: nat)
    requires AllShortBeyond(fetch, bound)
    requires forall d :: StableSource(fetch, d, lists(d))
    ensures GatedPages(ids, counts, fetch, bound).1 == CountedImages(ids, counts, lists)
  {
    if ids != [] {
      var id := ids[|ids| - 1];
      StableGatedPages(ids[..|ids| - 1], counts, fetch, lists, bound);
      if Count(counts, id) >= 1 {
        StablePages(fetch, id, lists(id), 0);
        PagesBoundIndependent(fetch, id, 0, bound, |lists(id)|);
      }
    }
  }

  // ---------------------------------------------------------------------------
  // Images of a project

  /** `sum([v.linkedImageList() for v in datasets], list())` */
  function ImageLists(datasets: seq<ModelObject>): Result<seq<ModelObject>, Failure>
  {
    if datasets == [] then Ok([])
    else
      match LinkedImageList(datasets[0])
      case Err(f) => Err(f)
      case Ok(xs) =>
        match ImageLists(datasets[1..])
        case Err(f) => Err(f)
        case Ok(ys) => Ok(xs + ys)
  }

  /** The in-memory path of `ProjectDocument.images`. */
  function InMemoryImages(project: ModelObject): Result<seq<ModelObject>, Failure>
  {
    match LinkedDatasetList(project)
    case Err(f) => Err(f)
    case Ok(datasets) => ImageLists(datasets)
  }

  /** The image lists can be summed exactly when every dataset's image links
      are loaded, and then the sum holds exactly the linked images. */
  lemma {:induction false} ImageListsSpec(datasets: seq<ModelObject>)
    ensures ImageLists(datasets).Ok? <==> forall i :: 0 <= i < |datasets| ==> datasets[i].imageLinks.Loaded?
    ensures ImageLists(datasets).Err? ==> ImageLists(datasets).error == UnloadedEntity
    ensures ImageLists(datasets).Ok? ==> forall x :: x in ImageLists(datasets).value <==>
      exists i, j :: 0 <= i < |datasets| && 0 <= j < |datasets[i].imageLinks.items| && datasets[i].imageLinks.items[j].child == x
  {
    if datasets != [] {
      var rest := datasets[1..];
      ImageListsSpec(rest);
      if !datasets[0].imageLinks.Loaded? {
      } else if ImageLists(rest).Err? {
        var i :| 0 <= i < |rest| && !rest[i].imageLinks.Loaded?;
        assert !datasets[i + 1].imageLinks.Loaded?;
      } else {
        assert forall i :: 1 <= i < |datasets| ==> datasets[i] == rest[i - 1];
        var xs := Children(datasets[0].imageLinks.items);
        forall x ensures x in ImageLists(datasets).value <==>
          exists i, j :: 0 <= i < |datasets| && 0 <= j < |datasets[i].imageLinks.items| && datasets[i].imageLinks.items[j].child == x
        {
          if x in xs {
            var j :| 0 <= j < |xs| && xs[j] == x;
            assert datasets[0].imageLinks.items[j].child == x;
          } else if x in ImageLists(rest).value {
            var i, j :| 0 <= i < |rest| && 0 <= j < |rest[i].imageLinks.items| && rest[i].imageLinks.items[j].child == x;
            assert datasets[i + 1].imageLinks.items[j].child == x;
          }
          if exists i, j :: 0 <= i < |datasets| && 0 <= j < |datasets[i].imageLinks.items| && datasets[i].imageLinks.items[j].child == x {
            var i, j :| 0 <= i < |datasets| && 0 <= j < |datasets[i].imageLinks.items| && datasets[i].imageLinks.items[j].child == x;
            if i == 0 {
              assert xs[j] == x;
            } else {
              assert rest[i - 1].imageLinks.items[j].child == x;
            }
          }
        }
      }
    }
  }

  /** The images `ProjectDocument.images` produces and the failure it raises
      (only from `find_images`). */
  function ProjectImages(project: ModelObject, countsOf: int -> map<int, int>, fetch: (int, nat) -> seq<ModelObject>, bound: nat): (seq<ModelObject>, Option<Failure>)
    requires AllShortBeyond(fetch, bound)
  {
    match InMemoryImages(project)
    case Ok(images) => (images, None)
    case Err(_) =>
      var found := FoundImages(project, countsOf, fetch, bound);
      (found.1, found.2)
  }

  /** `ProjectDocument.images`: the in-memory images when every relationship
      on the way is loaded; on UnloadedEntityException, `find_images`. */
  method Images(project: ModelObject, countsOf: int -> map<int, int>, fetch: (int, nat) -> seq<ModelObject>, ghost bound: nat)
    returns (queries: seq<Query>, images: seq<ModelObject>, failure: Option<Failure>)
    requires AllShortBeyond(fetch, bound)
    ensures InMemoryImages(project).Ok? ==>
      queries == [] && images == InMemoryImages(project).value && failure == None
    ensures InMemoryImages(project).Err? ==>
      (queries, images, failure) == FoundImages(project, countsOf, fetch, bound)
  {
    var inMemory := InMemoryImages(project);
    if inMemory.Ok? {
      return [], inMemory.value, None;
    }
    queries, images, failure := FindImages(project, countsOf, fetch, bound);
  }

  // ---------------------------------------------------------------------------
  // Image documents

  /** `ImageDocument`: the image, its dataset id and its encoding. */
  datatype ImageDocument = ImageDocument(image: ModelObject, datasetId: Option<int>, document: Doc)

  /** Which document is built: an image and the id of one of its datasets. */
  datatype DocRef = DocRef(image: ModelObject, datasetId: int)

  /** The first image whose dataset links are unloaded (`copyDatasetLinks()`
      raises there), or the number of images. */
  function FirstUnreadable(images: seq<ModelObject>): (k: nat)
    ensures k <= |images|
    ensures forall j :: 0 <= j < k ==> images[j].datasetLinks.Loaded?
    ensures k < |images| ==> !images[k].datasetLinks.Loaded?
  {
    if images == [] || !images[0].datasetLinks.Loaded? then 0
    else 1 + FirstUnreadable(images[1..])
  }

  /** The documents of one image: one per dataset link, in link order. */
  function ImageRefs(img: ModelObject): (r: seq<DocRef>)
    requires img.datasetLinks.Loaded?
    ensures |r| == |img.datasetLinks.items|
    ensures forall j :: 0 <= j < |r| ==> r[j] == DocRef(img, img.datasetLinks.items[j].parent.id)
  {
    seq(|img.datasetLinks.items|, j requires 0 <= j < |img.datasetLinks.items| => DocRef(img, img.datasetLinks.items[j].parent.id))
  }

  /** The documents of `image_documents`: images outer, links inner. */
  function DocumentRefs(images: seq<ModelObject>): seq<DocRef>
    requires forall j :: 0 <= j < |images| ==> images[j].datasetLinks.Loaded?
  {
    if images == [] then [] else DocumentRefs(images[..|images| - 1]) + ImageRefs(images[|images| - 1])
  }

  /** `docs` are the documents named by `refs`, each holding the encoding of
      its image with every object the image pass prunes unloaded. */
  predicate Encodes(docs: seq<ImageDocument>, refs: seq<DocRef>, encode: StructuralEncoder)
  {
    && |docs| == |refs|
    && forall k :: 0 <= k < |docs| ==>
         docs[k] == ImageDocument(refs[k].image, Some(refs[k].datasetId), encode(refs[k].image, {}))
  }

  lemma EncodesAppend(docs1: seq<ImageDocument>, refs1: seq<DocRef>, docs2: seq<ImageDocument>, refs2: seq<DocRef>, encode: StructuralEncoder)
    requires Encodes(docs1, refs1, encode) && Encodes(docs2, refs2, encode)
    ensures Encodes(docs1 + docs2, refs1 + refs2, encode)
  {
  }

  /** What building the documents of an image unloads: nothing when it has no
      dataset link (no document is built), else what `encode_image` unloads. */
  function EncodedTargets(img: ModelObject): set<ModelObject>
  {
    if img.datasetLinks.LoadedNonEmpty() then ImageTargets(img) else {}
  }

  /** The inner loop of `image_documents` for one image: one document per
      dataset link, each built by running `encode_image` again. */
  method DocumentsOfImage(img: ModelObject, links: seq<Link>, encode: StructuralEncoder) returns (docs: seq<ImageDocument>)
    requires img.datasetLinks == Loaded(links)
    requires forall x :: x in ImageTargets(img) ==> allocated(x)
    modifies ImageTargets(img)
    ensures Encodes(docs, ImageRefs(img), encode)
    ensures forall x :: x in EncodedTargets(img) ==> !x.detailsLoaded
    ensures |links| == 0 ==> unchanged(ImageTargets(img))
  {
    docs := [];
    for j := 0 to |links|
      invariant Encodes(docs, ImageRefs(img)[..j], encode)
      invariant j > 0 ==> forall x :: x in ImageTargets(img) ==> !x.detailsLoaded
      invariant j == 0 ==> unchanged(ImageTargets(img))
    {
      var doc := EncodeImage(img, encode);
      docs := docs + [ImageDocument(img, Some(links[j].parent.id), doc)];
      assert ImageRefs(img)[..j + 1] == ImageRefs(img)[..j] + [DocRef(img, links[j].parent.id)];
    }
    assert ImageRefs(img)[..|links|] == ImageRefs(img);
  }

  /** One more image of `image_documents` whose dataset links are loaded. */
  lemma ImageDocumentsStep(images: seq<ModelObject>, i: nat, docs: seq<ImageDocument>, more: seq<ImageDocument>, encode: StructuralEncoder)
    requires i < |images| && i <= FirstUnreadable(images) && images[i].datasetLinks.Loaded?
    requires Encodes(docs, DocumentRefs(images[..i]), encode)
    requires Encodes(more, ImageRefs(images[i]), encode)
    ensures i + 1 <= FirstUnreadable(images)
    ensures Encodes(docs + more, DocumentRefs(images[..i + 1]), encode)
  {
    assert images[..i + 1][..i] == images[..i];
    EncodesAppend(docs, DocumentRefs(images[..i]), more, ImageRefs(images[i]), encode);
  }

  /** The inner loop of `image_documents` on the next image, within the frame
      of the whole loop: it adds exactly the image's encoded targets to what
      the earlier images unloaded. */
  method DocumentsOfNextImage(img: ModelObject, links: seq<Link>, encode: StructuralEncoder,
                              ghost frame: set<ModelObject>, ghost start: map<ModelObject, bool>, ghost done: set<ModelObject>)
    returns (docs: seq<ImageDocument>)
    requires img.datasetLinks == Loaded(links)
    requires ImageTargets(img) <= frame && UnloadedSince(frame, start, done)
    modifies ImageTargets(img)
    ensures Encodes(docs, ImageRefs(img), encode)
    ensures UnloadedSince(frame, start, done + EncodedTargets(img))
  {
    ImageTargetsAllocated(img);
    docs := DocumentsOfImage(img, links, encode);
    forall o | o in frame ensures o in start && o.detailsLoaded == (start[o] && o !in done + EncodedTargets(img)) {
      if o !in ImageTargets(img) || links == [] {
        assert o.detailsLoaded == old(o.detailsLoaded);
      }
    }
  }

  /** `ProjectDocument.image_documents`: for each image, one `ImageDocument`
      per dataset link with the link parent's id, each construction running
      the image pruning pass; `copyDatasetLinks()` raises on unloaded links.
      Exactly the targets of the images before that one lose their details. */
  method ImageDocuments(images: seq<ModelObject>, encode: StructuralEncoder) returns (docs: seq<ImageDocument>, failure: Option<Failure>)
    modifies UnionOf(images, ImageTargets)
    ensures failure == if FirstUnreadable(images) < |images| then Some(UnloadedEntity) else None
    ensures Encodes(docs, DocumentRefs(images[..FirstUnreadable(images)]), encode)
    ensures UnloadedExactly(UnionOf(images, ImageTargets), UnionOf(images[..FirstUnreadable(images)], EncodedTargets))
  {
    forall i | 0 <= i < |images| ensures forall x :: x in ImageTargets(images[i]) ==> allocated(x) {
      ImageTargetsAllocated(images[i]);
    }
    UnionAllocated(images, ImageTargets);
    ghost var frame := UnionOf(images, ImageTargets);
    ghost var start := map o | o in frame :: o.detailsLoaded;
    docs := [];
    failure := None;
    var i := 0;
    while i < |images|
      invariant i <= FirstUnreadable(images)
      invariant Encodes(docs, DocumentRefs(images[..i]), encode)
      invariant forall o :: o in start ==> old(allocated(o)) && start[o] == old(o.detailsLoaded)
      invariant UnloadedSince(frame, start, UnionOf(images[..i], EncodedTargets))
    {
      var img := images[i];
      var links := img.datasetLinks.Copy();
      if links.Err? {
        failure := Some(UnloadedEntity);
        return;
      }
      UnionOfContains(images, ImageTargets, i);
      var more := DocumentsOfNextImage(img, links.value, encode, frame, start, UnionOf(images[..i], EncodedTargets));
      ImageDocumentsStep(images, i, docs, more, encode);
      docs := docs + more;
      UnionOfStep(images, i, EncodedTargets);
      i := i + 1;
    }
    assert images[..i] == images[..FirstUnreadable(images)];
  }

  /** The documents of consecutive runs of images follow each other: images
      outer, links inner. */
  lemma {:induction false} DocumentRefsAppend(a: seq<ModelObject>, b: seq<ModelObject>)
    requires forall j :: 0 <= j < |a| ==> a[j].datasetLinks.Loaded?
    requires forall j :: 0 <= j < |b| ==> b[j].datasetLinks.Loaded?
    ensures forall j :: 0 <= j < |a + b| ==> (a + b)[j].datasetLinks.Loaded?
    ensures DocumentRefs(a + b) == DocumentRefs(a) + DocumentRefs(b)
    decreases |b|
  {
    if b != [] {
      var b' := b[..|b| - 1];
      assert (a + b)[..|a + b| - 1] == a + b';
      assert forall j :: 0 <= j < |a + b'| ==> (a + b')[j] == (a + b)[j];
      DocumentRefsAppend(a, b');
    } else {
      assert a + b == a;
    }
  }

  /** A document is built for an image and a dataset exactly when that
      dataset is the parent of one of the image's dataset links. */
  lemma {:induction false} DocumentRefsSpec(images: seq<ModelObject>, r: DocRef)
    requires forall j :: 0 <= j < |images| ==> images[j].datasetLinks.Loaded?
    ensures r in DocumentRefs(images) <==>
      exists i, j :: 0 <= i < |images| && 0 <= j < |images[i].datasetLinks.items| &&
        r == DocRef(images[i], images[i].datasetLinks.items[j].parent.id)
  {
    if images != [] {
      var init := images[..|images| - 1];
      var last := images[|images| - 1];
      DocumentRefsSpec(init, r);
      if r in DocumentRefs(init) {
        var i, j :| 0 <= i < |init| && 0 <= j < |init[i].datasetLinks.items| &&
          r == DocRef(init[i], init[i].datasetLinks.items[j].parent.id);
        assert images[i] == init[i];
      } else if r in ImageRefs(last) {
        var j :| 0 <= j < |ImageRefs(last)| && ImageRefs(last)[j] == r;
        assert r == DocRef(images[|images| - 1], images[|images| - 1].datasetLinks.items[j].parent.id);
      }
      if exists i, j :: 0 <= i < |images| && 0 <= j < |images[i].datasetLinks.items| &&
           r == DocRef(images[i], images[i].datasetLinks.items[j].parent.id) {
        var i, j :| 0 <= i < |images| && 0 <= j < |images[i].datasetLinks.items| &&
          r == DocRef(images[i], images[i].datasetLinks.items[j].parent.id);
        if i < |images| - 1 {
          assert init[i] == images[i];
        } else {
          assert ImageRefs(last)[j] == r;
        }
      }
    }
  }

  // ---------------------------------------------------------------------------
  // Wells of a plate

  /** The wells `PlateDocument.wells` yields: the in-memory wells when they
      are loaded, otherwise every page of `find_wells`. */
  function PlateWells(plate: ModelObject, fetch: (int, nat) -> seq<ModelObject>, bound: nat): seq<ModelObject>
    requires ShortBeyond(fetch, plate.id, bound)
  {
    if plate.wells.Loaded? then plate.wells.items else Concat(Pages(fetch, plate.id, 0, bound))
  }

  /** `PlateDocument.wells`: the in-memory wells, or on
      UnloadedEntityException the wells paged by `find_wells` (no count gate). */
  method Wells(plate: ModelObject, fetch: (int, nat) -> seq<ModelObject>, ghost bound: nat) returns (queries: seq<Query>, wells: seq<ModelObject>)
    requires ShortBeyond(fetch, plate.id, bound)
    ensures wells == PlateWells(plate, fetch, bound)
    ensures plate.wells.Loaded? ==> queries == [] && wells == plate.wells.items
    ensures !plate.wells.Loaded? ==>
      && queries == PageQueries(plate.id, |Pages(fetch, plate.id, 0, bound)|)
      && wells == Concat(Pages(fetch, plate.id, 0, bound))
  {
    var inMemory := plate.wells.Copy();
    if inMemory.Ok? {
      return [], inMemory.value;
    }
    var offsets;
    offsets, wells := FetchPages(fetch, plate.id, bound);
    queries := QueriesAt(plate.id, offsets);
  }

  /** `WellDocument`: the well and its encoding. */
  datatype WellDocument = WellDocument(well: ModelObject, document: Doc)

  /** The first well whose pruning pass raises, or the number of wells. */
  function FirstFailingWell(wells: seq<ModelObject>): (k: nat)
    ensures k <= |wells|
    ensures forall j :: 0 <= j < k ==> WellOutcome(wells[j]).1.None?
    ensures k < |wells| ==> WellOutcome(wells[k]).1.Some?
  {
    if wells == [] || WellOutcome(wells[0]).1.Some? then 0
    else 1 + FirstFailingWell(wells[1..])
  }

  /** `encode_well` on the next well of `well_documents`, within the frame of
      the whole loop: it adds exactly what the well pass unloads to what the
      earlier wells unloaded. */
  method EncodeNextWell(w: ModelObject, encode: StructuralEncoder,
                        ghost frame: set<ModelObject>, ghost start: map<ModelObject, bool>, ghost done: set<ModelObject>)
    returns (r: Result<Doc, Failure>)
    requires WellTargets(w) <= frame && UnloadedSince(frame, start, done)
    modifies WellTargets(w)
    ensures r.Err? <==> WellOutcome(w).1.Some?
    ensures r.Err? ==> Some(r.error) == WellOutcome(w).1
    ensures r.Ok? ==> r.value == encode(w, {})
    ensures UnloadedSince(frame, start, done + WellOutcome(w).0)
  {
    WellOutcomeWithin(w);
    r := EncodeWell(w, encode);
    forall o | o in frame ensures o in start && o.detailsLoaded == (start[o] && o !in done + WellOutcome(w).0) {
      if o !in WellTargets(w) {
        assert o.detailsLoaded == old(o.detailsLoaded);
      }
    }
  }

  /** One more well of `well_documents` after a well that did not raise. */
  lemma WellDocumentsStep(wells: seq<ModelObject>, docs: seq<WellDocument>, encode: StructuralEncoder, i: nat)
    requires i < |wells| && i <= FirstFailingWell(wells) && WellOutcome(wells[i]).1.None?
    requires |docs| == i && forall j :: 0 <= j < i ==> docs[j] == WellDocument(wells[j], encode(wells[j], {}))
    ensures i + 1 <= FirstFailingWell(wells)
    ensures var docs' := docs + [WellDocument(wells[i], encode(wells[i], {}))];
      forall j :: 0 <= j < i + 1 ==> docs'[j] == WellDocument(wells[j], encode(wells[j], {}))
  {
  }

  /** What `well_documents` unloads: every target of the wells before the
      first failing well, and what the failing well's pass got to. */
  function WellsUnloaded(wells: seq<ModelObject>, n: nat): set<ModelObject>
    requires n <= |wells|
  {
    UnionOf(wells[..n], WellTargets) + (if n < |wells| then WellOutcome(wells[n]).0 else {})
  }

  /** `PlateDocument.well_documents`: one `WellDocument` per well, in order,
      each construction running the well pruning pass; the first pass that
      raises ends the sequence. Exactly the objects those passes reach lose
      their details. */
  method WellDocuments(wells: seq<ModelObject>, encode: StructuralEncoder) returns (docs: seq<WellDocument>, failure: Option<Failure>)
    modifies UnionOf(wells, WellTargets)
    ensures |docs| == FirstFailingWell(wells)
    ensures forall j :: 0 <= j < |docs| ==> docs[j] == WellDocument(wells[j], encode(wells[j], {}))
    ensures failure == if |docs| < |wells| then WellOutcome(wells[|docs|]).1 else None
    ensures UnloadedExactly(UnionOf(wells, WellTargets), WellsUnloaded(wells, |docs|))
  {
    forall i | 0 <= i < |wells| ensures forall x :: x in WellTargets(wells[i]) ==> allocated(x) {
      WellTargetsAllocated(wells[i]);
    }
    UnionAllocated(wells, WellTargets);
    ghost var frame := UnionOf(wells, WellTargets);
    ghost var start := map o | o in frame :: o.detailsLoaded;
    docs := [];
    failure := None;
    for i := 0 to |wells|
      invariant i <= FirstFailingWell(wells)
      invariant |docs| == i
      invariant forall j :: 0 <= j < i ==> docs[j] == WellDocument(wells[j], encode(wells[j], {}))
      invariant forall o :: o in start ==> old(allocated(o)) && start[o] == old(o.detailsLoaded)
      invariant UnloadedSince(frame, start, UnionOf(wells[..i], WellTargets))
    {
      UnionOfContains(wells, WellTargets, i);
      var r := EncodeNextWell(wells[i], encode, frame, start, UnionOf(wells[..i], WellTargets));
      if r.Err? {
        failure := Some(r.error);
        return;
      }
      WellDocumentsStep(wells, docs, encode, i);
      docs := docs + [WellDocument(wells[i], r.value)];
      UnionOfStep(wells, i, WellTargets);
    }
    assert wells[..|wells|] == wells;
  }
}
