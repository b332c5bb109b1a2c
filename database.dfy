/**
 * The collections of the document database the route handlers share, each
 * held in natural (insertion) order, which is the order `findOne` returns
 * the first match in. Each collection is its own object, so a route names
 * in its frame exactly the collections it writes.
 */
module Database {
  import SellerModel
  import AffiliateModel
  import ProductModel

  class SellerCollection {
    var records: seq<SellerModel.Seller>

    constructor()
      ensures records == []
    {
      records := [];
    }
  }

  class AffiliateCollection {
    var records: seq<AffiliateModel.Affiliate>

    constructor()
      ensures records == []
    {
      records := [];
    }
  }

  class ProductCollection {
    var records: seq<ProductModel.Product>

    constructor()
      ensures records == []
    {
      records := [];
    }
  }
}
