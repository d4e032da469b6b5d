/** The bulk actions the indexer sends for the children of a project (image
    documents) and of a plate (well documents). */
module IndexActions {
  import opened Values
  import opened Numerals
  import opened Documents

  /** One bulk action: `_index`, `_type`, `_parent`, `_id` and `_source`
      (the document itself; its JSON serialisation is not modelled). */
  datatype Action = Action(index: string, docType: string, parent: int, id: Json, source: Doc)

  /** `'%d_%d' % (dataset_id, image_id)` */
  function CompositeId(datasetId: int, imageId: int): string
  {
    ShowInt(datasetId) + "_" + ShowInt(imageId)
  }

  /** The `_id` of an image action: the composite id when the document has a
      dataset id, otherwise the bare image id. */
  function ImageActionId(doc: ImageDocument): Json
  {
    match doc.datasetId
    case Some(d) => JStr(CompositeId(d, doc.image.id))
    case None => JInt(doc.image.id)
  }

  /** `s` split at the first occurrence of `c`. */
  function Split(s: string, c: char): Option<(string, string)>
  {
    if s == [] then None
    else if s[0] == c then Some(([], s[1..]))
    else
      match Split(s[1..], c)
      case None => None
      case Some(parts) => Some(([s[0]] + parts.0, parts.1))
  }

  lemma {:induction false} SplitFirst(a: string, b: string, c: char)
    requires c !in a
    ensures Split(a + [c] + b, c) == Some((a, b))
  {
    if a != [] {
      SplitFirst(a[1..], b, c);
      assert (a + [c] + b)[1..] == a[1..] + [c] + b;
      assert [a[0]] + a[1..] == a;
    } else {
      assert a + [c] + b == [c] + b;
    }
  }

  /** Reads an image action `_id` back into the dataset id (if any) and the
      image id. */
  function ParseImageActionId(id: Json): Option<(Option<int>, int)>
  {
    match id
    case JInt(i) => Some((None, i))
    case JStr(s) =>
      (match Split(s, '_')
       case None => None
       case Some(parts) =>
         match (ParseInt(parts.0), ParseInt(parts.1))
         case (Some(d), Some(i)) => Some((Some(d), i))
         case _ => None)
    case _ => None
  }

  /** The `_id` of an image action determines the dataset id and the image id
      it was made from. */
  lemma ImageActionIdRoundTrip(doc: ImageDocument)
    ensures ParseImageActionId(ImageActionId(doc)) == Some((doc.datasetId, doc.image.id))
  {
    if doc.datasetId.Some? {
      var d := doc.datasetId.value;
      ShowIntNoUnderscore(d);
      SplitFirst(ShowInt(d), ShowInt(doc.image.id), '_');
      ParseShowInt(d);
      ParseShowInt(doc.image.id);
    }
  }

  /** Two image documents get the same `_id` only when they have the same
      dataset id and the same image id. */
  lemma ImageActionIdInjective(doc1: ImageDocument, doc2: ImageDocument)
    requires ImageActionId(doc1) == ImageActionId(doc2)
    ensures doc1.datasetId == doc2.datasetId && doc1.image.id == doc2.image.id
  {
    ImageActionIdRoundTrip(doc1);
    ImageActionIdRoundTrip(doc2);
  }

  /** `image_document_index_actions`: one action per image document, in
      order, routed to the project. */
  function ImageActions(projectId: int, index: string, docs: seq<ImageDocument>): (actions: seq<Action>)
    ensures |actions| == |docs|
    ensures forall k :: 0 <= k < |docs| ==>
      && actions[k].index == index
      && actions[k].docType == "image"
      && actions[k].parent == projectId
      && actions[k].source == docs[k].document
      && ParseImageActionId(actions[k].id) == Some((docs[k].datasetId, docs[k].image.id))
  {
    assert forall k :: 0 <= k < |docs| ==> ParseImageActionId(ImageActionId(docs[k])) == Some((docs[k].datasetId, docs[k].image.id)) by {
      forall k | 0 <= k < |docs| ensures ParseImageActionId(ImageActionId(docs[k])) == Some((docs[k].datasetId, docs[k].image.id)) {
        ImageActionIdRoundTrip(docs[k]);
      }
    }
    seq(|docs|, k requires 0 <= k < |docs| => Action(index, "image", projectId, ImageActionId(docs[k]), docs[k].document))
  }

  /** Documents for different (dataset, image) pairs get different `_id`s, so
      no image action overwrites another. */
  lemma ImageActionIdsDistinct(projectId: int, index: string, docs: seq<ImageDocument>, j: nat, k: nat)
    requires j < |docs| && k < |docs|
    requires ImageActions(projectId, index, docs)[j].id == ImageActions(projectId, index, docs)[k].id
    ensures docs[j].datasetId == docs[k].datasetId && docs[j].image.id == docs[k].image.id
  {
  }

  /** `well_document_index_actions`: one action per well document, in order,
      with the well id as `_id`, routed to the plate. */
  function WellActions(plateId: int, index: string, docs: seq<WellDocument>): (actions: seq<Action>)
    ensures |actions| == |docs|
    ensures forall k :: 0 <= k < |docs| ==>
      actions[k] == Action(index, "well", plateId, JInt(docs[k].well.id), docs[k].document)
  {
    seq(|docs|, k requires 0 <= k < |docs| => Action(index, "well", plateId, JInt(docs[k].well.id), docs[k].document))
  }
}
