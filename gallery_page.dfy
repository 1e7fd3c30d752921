/** The gallery page's catalog loader: turns the host's search response
    into gallery records, attaches each record's blur placeholder, and
    falls back to an empty list when anything throws. */
module GalleryPage {
  import opened Wrappers
  import opened ImageTypes
  import GalleryGrid
  import ModalUrls

  /** One asset descriptor of the host's search response. */
  datatype Resource = Resource(height: nat, width: nat, publicId: string, format: string)

  /** The search call: the resources in the host's order, or an exception. */
  datatype SearchResponse = Found(resources: seq<Resource>) | SearchThrew

  /** One placeholder derivation: its data address, or an exception. */
  datatype BlurResult = Blurred(dataUrl: string) | BlurThrew

  /** How the loader finishes: it returns a list, or it runs off the end of
      its body and its promise resolves to `undefined`. */
  datatype Completion = Returns(images: seq<GalleryImage>) | ReturnsUndefined

  /** The record built for the resource at `position`: its counter value as
      `id`, the other fields copied, no placeholder yet. */
  predicate IsRecordOf(record: GalleryImage, position: nat, resource: Resource) {
    && record.id == position
    && record.height == resource.height
    && record.width == resource.width
    && record.publicId == resource.publicId
    && record.format == resource.format
  }

  /** `records` are the records of `resources`, one per resource, in order. */
  predicate DescribesAll(records: seq<GalleryImage>, resources: seq<Resource>) {
    |records| == |resources| && forall i :: 0 <= i < |records| ==> IsRecordOf(records[i], i, resources[i])
  }

  /** The first loop: push one record per resource while a counter counts
      the positions. */
  method BuildRecords(resources: seq<Resource>) returns (records: seq<GalleryImage>)
    ensures DescribesAll(records, resources)
    ensures forall i :: 0 <= i < |records| ==> records[i].blurDataUrl == None
  {
    records := [];
    var i: nat := 0;
    for k := 0 to |resources|
      invariant i == k == |records|
      invariant DescribesAll(records, resources[..k])
      invariant forall j :: 0 <= j < |records| ==> records[j].blurDataUrl == None
    {
      var r := resources[k];
      records := records + [GalleryImage(i, r.height, r.width, r.publicId, r.format, None)];
      i := i + 1;
    }
    assert resources[..|resources|] == resources;
  }

  /** Waiting for all derivations together: the data addresses in the order
      they were requested, or nothing if any derivation threw. */
  function JoinAll(blurs: seq<BlurResult>): (joined: Option<seq<string>>)
    ensures joined.Some? <==> forall i :: 0 <= i < |blurs| ==> blurs[i].Blurred?
    ensures joined.Some? ==> |joined.value| == |blurs|
                             && forall i :: 0 <= i < |blurs| ==> joined.value[i] == blurs[i].dataUrl
  {
    if blurs == [] then Some([])
    else match blurs[0]
      case BlurThrew => None
      case Blurred(dataUrl) =>
        match JoinAll(blurs[1..])
        case None => None
        case Some(rest) => Some([dataUrl] + rest)
  }

  /** The second loop: record i receives the i-th placeholder, in place;
      no other field of any record changes. */
  method AttachBlurDataUrls(records: seq<GalleryImage>, dataUrls: seq<string>) returns (updated: seq<GalleryImage>)
    requires |dataUrls| == |records|
    ensures |updated| == |records|
    ensures forall i :: 0 <= i < |updated| ==>
              updated[i].blurDataUrl == Some(dataUrls[i]) && updated[i].(blurDataUrl := None) == records[i].(blurDataUrl := None)
  {
    updated := records;
    for i := 0 to |updated|
      invariant |updated| == |records|
      invariant forall j :: 0 <= j < i ==> updated[j] == records[j].(blurDataUrl := Some(dataUrls[j]))
      invariant forall j :: i <= j < |updated| ==> updated[j] == records[j]
    {
      updated := updated[i := updated[i].(blurDataUrl := Some(dataUrls[i]))];
    }
  }

  /** `records` are the finished catalog of `resources`: described in order
      and carrying the placeholders in the same order. */
  predicate IsCatalog(records: seq<GalleryImage>, resources: seq<Resource>, dataUrls: seq<string>) {
    && DescribesAll(records, resources)
    && |dataUrls| == |records|
    && forall i :: 0 <= i < |records| ==> records[i].blurDataUrl == Some(dataUrls[i])
  }

  /** The loader as written. `built` is the list its body had built when it
      left the `try` block. On success the body ends without a `return`. */
  method GetImages(search: SearchResponse, blurs: seq<BlurResult>) returns (completion: Completion, built: seq<GalleryImage>)
    requires search.Found? ==> |blurs| == |search.resources|
    ensures search.SearchThrew? ==> completion == Returns([]) && built == []
    ensures search.Found? && JoinAll(blurs).None? ==>
              completion == Returns([]) && DescribesAll(built, search.resources)
    ensures search.Found? && JoinAll(blurs).Some? ==>
              completion == ReturnsUndefined && IsCatalog(built, search.resources, JoinAll(blurs).value)
  {
    built := [];
    match search {
      case SearchThrew =>
        completion := Returns([]);
      case Found(resources) =>
        built := BuildRecords(resources);
        match JoinAll(blurs) {
          case None =>
            completion := Returns([]);
          case Some(dataUrls) =>
            built := AttachBlurDataUrls(built, dataUrls);
            completion := ReturnsUndefined;
        }
    }
  }

  /** The loader with the `return` its success path evidently meant to have:
      the caller always receives a list, the full catalog on success and the
      empty list on any failure. */
  method GetImagesFixed(search: SearchResponse, blurs: seq<BlurResult>) returns (completion: Completion)
    requires search.Found? ==> |blurs| == |search.resources|
    ensures completion.Returns?
    ensures search.SearchThrew? || JoinAll(blurs).None? ==> completion.images == []
    ensures search.Found? && JoinAll(blurs).Some? ==>
              IsCatalog(completion.images, search.resources, JoinAll(blurs).value)
  {
    var built;
    completion, built := GetImages(search, blurs);
    if completion == ReturnsUndefined {
      completion := Returns(built);
    }
  }

  /** An empty search response: no placeholder is requested, the search did
      not throw, and the loader as written still hands its caller `undefined`
      instead of the empty list. */
  method MissingReturnExample() returns (completion: Completion, built: seq<GalleryImage>)
    ensures completion == ReturnsUndefined && built == []
  {
    completion, built := GetImages(Found([]), []);
  }

  /** One resource whose placeholder is derived without error: a one-record
      catalog is built, and the loader as written still returns `undefined`. */
  method MissingReturnWithOneImage() returns (completion: Completion, built: seq<GalleryImage>)
    ensures completion == ReturnsUndefined && |built| == 1 && built[0].blurDataUrl.Some?
  {
    var resource := Resource(400, 600, "club/photo", "jpg");
    completion, built := GetImages(Found([resource]), [Blurred("data:image/png;base64,")]);
  }

  /** The ids a list of records carries. */
  function Ids(records: seq<GalleryImage>): set<nat> {
    set r | r in records :: r.id
  }

  /** The positions of a catalog are its ids: unique and exactly 0..N-1. */
  lemma CatalogIdsArePositions(records: seq<GalleryImage>, resources: seq<Resource>)
    requires DescribesAll(records, resources)
    ensures forall n: nat :: n in Ids(records) <==> n < |resources|
    ensures forall i, j :: 0 <= i < j < |records| ==> records[i].id != records[j].id
  {
    forall n: nat | n < |resources| ensures n in Ids(records) {
      assert records[n] in records;
    }
  }

  /** Because the ids are positions, the thumbnails of a catalog all have
      different addresses (and different list keys). */
  lemma CatalogPreviewUrlsDistinct(cloudName: string, records: seq<GalleryImage>, resources: seq<Resource>)
    requires DescribesAll(records, resources)
    ensures forall i, j :: 0 <= i < j < |records| ==>
              ModalUrls.PreviewUrl(cloudName, records[i]) != ModalUrls.PreviewUrl(cloudName, records[j])
  {
    forall i, j | 0 <= i < j < |records|
      ensures ModalUrls.PreviewUrl(cloudName, records[i]) != ModalUrls.PreviewUrl(cloudName, records[j])
    {
      if ModalUrls.PreviewUrl(cloudName, records[i]) == ModalUrls.PreviewUrl(cloudName, records[j]) {
        ModalUrls.PreviewUrlInjective(cloudName, records[i], records[j]);
      }
    }
  }

  /** The page: load the catalog with the corrected loader and mount the
      gallery grid on it. */
  method GalleryPageView(search: SearchResponse, blurs: seq<BlurResult>) returns (viewer: GalleryGrid.Viewer)
    requires search.Found? ==> |blurs| == |search.resources|
    ensures fresh(viewer) && viewer.Valid() && !viewer.ModalShown()
    ensures search.Found? && JoinAll(blurs).Some? ==>
              IsCatalog(viewer.images, search.resources, JoinAll(blurs).value)
    ensures search.SearchThrew? || JoinAll(blurs).None? ==> viewer.images == []
  {
    var completion := GetImagesFixed(search, blurs);
    viewer := new GalleryGrid.Viewer(completion.images);
  }
}
