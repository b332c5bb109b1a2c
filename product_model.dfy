/** The product record and its media items, with the schema's defaults and required paths. */
module ProductModel {
  import opened Wrappers
  import opened Text

  datatype MediaKind = Image | Video | Pdf | Promo

  /** One stored media item; the size is in hundredths of a megabyte. */
  datatype MediaItem = MediaItem(url: string, filename: string, sizeCentiMB: nat, mimeType: string, kind: MediaKind)

  datatype ProductStatus = Draft | Published

  datatype Stats = Stats(views: nat, clicks: nat, conversions: nat)

  /** `id` is the document's `_id`; `sellerId` holds the owning seller's `_id`. */
  datatype Product = Product(
    id: string,
    sellerId: string,
    title: string,
    description: string,
    category: string,
    tags: seq<string>,
    price: real,
    currency: string,
    status: ProductStatus,
    images: seq<MediaItem>,
    videos: seq<MediaItem>,
    documents: seq<MediaItem>,
    stats: Stats)

  /**
   * `Product.create` with the paths the upload handler gives. Title and
   * description are trimmed; a required string left empty, or a price that
   * is not a number (None), fails validation.
   */
  function Create(id: string, sellerId: string, title: string, description: string,
                  category: string, price: Option<real>, currency: string): (r: Option<Product>)
    ensures r.Some? <==> sellerId != "" && Trim(title) != "" && Trim(description) != ""
                         && category != "" && price.Some? && currency != ""
    ensures r.Some? ==> r.value.id == id && r.value.sellerId == sellerId
                        && r.value.title == Trim(title) && r.value.description == Trim(description)
                        && r.value.category == category && r.value.price == price.value
                        && r.value.currency == currency
    ensures r.Some? ==> r.value.status == Draft && r.value.tags == []
                        && r.value.images == [] && r.value.videos == [] && r.value.documents == []
                        && r.value.stats == Stats(0, 0, 0)
  {
    if sellerId != "" && Trim(title) != "" && Trim(description) != "" && category != ""
       && price.Some? && currency != ""
    then Some(Product(id, sellerId, Trim(title), Trim(description), category, [], price.value,
                      currency, Draft, [], [], [], Stats(0, 0, 0)))
    else None
  }
}
