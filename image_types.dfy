/** The image record the gallery passes from the catalog loader to the viewer. */
module ImageTypes {
  import opened Wrappers

  /** One photo of the catalog. `id` is the record's position in the catalog
      (the loader assigns it from a counter), `publicId` is the host's own
      identifier, and `blurDataUrl` is the placeholder, absent until the
      loader attaches it. */
  datatype GalleryImage = GalleryImage(
    id: nat,
    height: nat,
    width: nat,
    publicId: string,
    format: string,
    blurDataUrl: Option<string>)
}
