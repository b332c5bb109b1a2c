/**
 * The media upload route: a signed-in seller sends a multipart form of
 * files, either for one of their products (named by the `x-product-id`
 * header) or for a product the route creates on the spot. Each file is
 * size-checked by kind, written under the seller's upload directory and
 * filed into the product's images, videos or documents; the seller's
 * storage counter grows by the total size.
 */
module MediaUpload {
  import opened Wrappers
  import opened Tokens
  import opened Http
  import Lookup
  import Lists
  import SellerModel
  import opened ProductModel
  import opened MediaProcessor
  import Database

  /** An uploaded file: its client-side name, MIME type and size in bytes. */
  datatype File = File(name: string, mimeType: string, size: nat)

  /** A multipart form entry holds a string or a file. */
  datatype FormValue = FieldText(s: string) | FieldFile(file: File)

  datatype FormEntry = FormEntry(name: string, value: FormValue)

  /** What `toString()` gives for a file entry. */
  const FileObjectText: string := "[object File]"

  /** The route's answer: an error envelope, or the product id and the stored items. */
  datatype UploadReply = Refused(status: int, error: string) | Uploaded(productId: string, items: seq<MediaItem>)

  const Unauthorized: UploadReply := Refused(401, "Unauthorized")
  const InvalidToken: UploadReply := Refused(401, "Invalid token")
  const InvalidProduct: UploadReply := Refused(403, "Invalid product")
  const NoFiles: UploadReply := Refused(400, "No files provided")
  /**
   * A product that fails schema validation on `create`: the catch-all
   * answers 500 with the error's message. Mongoose's message goes on with
   * each failing path and its reason; the model keeps only this prefix.
   */
  const CreateFailed: UploadReply := Refused(500, "Product validation failed")

  function TooLarge(f: File): UploadReply {
    Refused(413, "File " + f.name + " exceeds size limit")
  }

  /** The stored files under the public upload directory, in the order they were written. */
  class UploadDir {
    var items: seq<MediaItem>

    constructor()
      ensures items == []
    {
      items := [];
    }
  }

  // ---- Reading the form ----

  predicate Named(name: string, e: FormEntry) {
    e.name == name
  }

  /** `formData.get(name)?.toString() || fallback`: the first entry of that name, unless absent or empty. */
  function FormText(form: seq<FormEntry>, name: string, fallback: string): (r: string)
    ensures Lookup.FirstIndex(form, e => Named(name, e)).None? ==> r == fallback
    ensures r == "" ==> fallback == ""
  {
    match Lookup.FirstIndex(form, e => Named(name, e))
    case None => fallback
    case Some(k) =>
      match form[k].value
      case FieldFile(_) => FileObjectText
      case FieldText(s) => if s == "" then fallback else s
  }

  /** The files of the form, in form order: what the first loop pushes. */
  function Files(form: seq<FormEntry>): (r: seq<File>)
    ensures |r| <= |form|
    ensures r == [] <==> forall i :: 0 <= i < |form| ==> !form[i].value.FieldFile?
  {
    if form == [] then []
    else
      var last := form[|form| - 1];
      assert forall i :: 0 <= i < |form| - 1 ==> form[..|form| - 1][i] == form[i];
      Files(form[..|form| - 1]) + (if last.value.FieldFile? then [last.value.file] else [])
  }

  // ---- The stored items ----

  function KindName(k: MediaKind): string {
    match k
    case Image => "image"
    case Video => "video"
    case Pdf => "pdf"
    case Promo => "promo"
  }

  /** The item written for file `f`, with `uuid` the identifier `randomUUID` drew for it. */
  function Item(sellerKey: string, f: File, uuid: string): MediaItem {
    var name := GenerateFilename(uuid, f.name);
    var kind := GetKind(f.mimeType);
    MediaItem("/uploads/" + sellerKey + "/" + KindName(kind) + "s/" + name, name,
              BytesToCentiMB(f.size), f.mimeType, kind)
  }

  /** The items for `files`, the i-th using the i-th drawn identifier. */
  function Items(sellerKey: string, files: seq<File>, uuids: nat -> string): (r: seq<MediaItem>)
    ensures |r| == |files|
  {
    seq(|files|, i requires 0 <= i < |files| => Item(sellerKey, files[i], uuids(i)))
  }

  /**
   * The per-file gate, on the kind and rounded size computed for the file:
   * an image or a video over its limit; other kinds are never checked.
   */
  predicate Oversized(limits: SellerModel.UploadLimits, m: MediaItem) {
    (m.kind == Image && m.sizeCentiMB > 100 * limits.maxImageSizeMB)
    || (m.kind == Video && m.sizeCentiMB > 100 * limits.maxVideoSizeMB)
  }

  /** The gate as the test `FirstIndex` applies to each item. */
  function OverLimit(limits: SellerModel.UploadLimits): MediaItem -> bool {
    m => Oversized(limits, m)
  }

  /** The first file the gate refuses. */
  function FirstOversized(limits: SellerModel.UploadLimits, items: seq<MediaItem>): (r: Option<nat>)
    ensures r.Some? ==> r.value < |items| && Oversized(limits, items[r.value])
    ensures r.Some? ==> forall j :: 0 <= j < r.value ==> !Oversized(limits, items[j])
    ensures r.None? ==> forall j :: 0 <= j < |items| ==> !Oversized(limits, items[j])
  {
    Lookup.FirstIndex(items, OverLimit(limits))
  }

  /** The gate's first refusal is the one refused item with none refused before it. */
  lemma FirstOversizedIs(limits: SellerModel.UploadLimits, items: seq<MediaItem>, k: nat)
    requires k < |items| && Oversized(limits, items[k])
    requires forall j :: 0 <= j < k ==> !Oversized(limits, items[j])
    ensures FirstOversized(limits, items) == Some(k)
  {
  }

  predicate IsImage(m: MediaItem) { m.kind == Image }
  predicate IsVideo(m: MediaItem) { m.kind == Video }
  predicate IsDocument(m: MediaItem) { m.kind == Pdf || m.kind == Promo }

  /** The `reduce` over the items' sizes. */
  function TotalSize(items: seq<MediaItem>): int {
    if items == [] then 0 else TotalSize(items[..|items| - 1]) + items[|items| - 1].sizeCentiMB
  }

  /** The `$push` of the three filtered lists onto the product. */
  function Attach(p: Product, items: seq<MediaItem>): (r: Product)
    ensures r.images == p.images + Lists.Filter(items, IsImage)
    ensures r.videos == p.videos + Lists.Filter(items, IsVideo)
    ensures r.documents == p.documents + Lists.Filter(items, IsDocument)
    ensures r.(images := p.images, videos := p.videos, documents := p.documents) == p
  {
    p.(images := p.images + Lists.Filter(items, IsImage),
       videos := p.videos + Lists.Filter(items, IsVideo),
       documents := p.documents + Lists.Filter(items, IsDocument))
  }

  /** The `$inc` of the seller's storage counter. */
  function Charge(s: SellerModel.Seller, items: seq<MediaItem>): (r: SellerModel.Seller)
    ensures r.storageUsedCentiMB == s.storageUsedCentiMB + TotalSize(items)
    ensures r.(storageUsedCentiMB := s.storageUsedCentiMB) == s
  {
    s.(storageUsedCentiMB := s.storageUsedCentiMB + TotalSize(items))
  }

  // ---- The route, stage by stage ----

  /** Who is uploading: a refusal, or the position of the signed-in seller. */
  datatype Caller = Denied(reply: UploadReply) | SignedIn(index: nat)

  /** The `token` cookie, its verification and the seller lookup by the `sub` claim. */
  function Authorize(sellers: seq<SellerModel.Seller>, jar: CookieJar, now: int): (r: Caller)
    ensures r.SignedIn? ==> r.index < |sellers|
    ensures r.SignedIn? <==> (Verify(CookieValue(jar, "token"), now).Some?
                              && Verify(CookieValue(jar, "token"), now).value.sub.Some?
                              && SellerModel.FindById(sellers, Verify(CookieValue(jar, "token"), now).value.sub.value).Some?)
  {
    var token := CookieValue(jar, "token");
    if token.Blank? then Denied(Unauthorized)
    else match Verify(token, now)
      case None => Denied(InvalidToken)
      case Some(claims) =>
        match claims.sub
        case None => Denied(Unauthorized)
        case Some(sub) =>
          match SellerModel.FindById(sellers, sub)
          case None => Denied(Unauthorized)
          case Some(i) => SignedIn(i)
  }

  function ProductIndex(products: seq<Product>, id: string): (r: Option<nat>)
    ensures r.Some? ==> r.value < |products| && products[r.value].id == id
    ensures r.None? ==> forall j :: 0 <= j < |products| ==> products[j].id != id
  {
    Lookup.FirstIndex(products, (p: Product) => p.id == id)
  }

  /** The product the files go to: a refusal, or the product store with its position and id. */
  datatype Target = Rejected(reply: UploadReply) | Chosen(products: seq<Product>, index: nat, productId: string)

  /** The product `create` makes from the form fields, each with its fallback; `parseFloat` is given. */
  function NewProduct(sellerKey: string, form: seq<FormEntry>, newId: string,
                      parseFloat: string -> Option<real>): Option<Product>
  {
    Create(newId, sellerKey, FormText(form, "title", "Untitled Product"),
           FormText(form, "description", "No description"),
           FormText(form, "category", "uncategorized"),
           parseFloat(FormText(form, "price", "0")),
           FormText(form, "currency", "USD"))
  }

  /**
   * A non-empty header selects an existing product of this seller; an
   * absent or empty one creates a new product under the fresh id `newId`.
   */
  function ChooseProduct(products: seq<Product>, sellerKey: string, header: Option<string>,
                         form: seq<FormEntry>, newId: string, parseFloat: string -> Option<real>): (r: Target)
    ensures r.Chosen? ==> r.index < |r.products| && r.products[r.index].id == r.productId
    ensures r.Chosen? ==> r.products[r.index].sellerId == sellerKey
  {
    if header.Some? && header.value != "" then
      match ProductIndex(products, header.value)
      case None => Rejected(InvalidProduct)
      case Some(k) =>
        if products[k].sellerId != sellerKey then Rejected(InvalidProduct)
        else Chosen(products, k, header.value)
    else
      match NewProduct(sellerKey, form, newId, parseFloat)
      case None => Rejected(CreateFailed)
      case Some(p) => Chosen(products + [p], |products|, newId)
  }

  /** The whole effect of one call: the reply and the three stores after it. */
  datatype Outcome = Outcome(reply: UploadReply, sellers: seq<SellerModel.Seller>,
                             products: seq<Product>, stored: seq<MediaItem>)

  /** Everything after the product is chosen: the file gate, the writes and the two updates. */
  function StoreFiles(sellers: seq<SellerModel.Seller>, si: nat, products: seq<Product>, pi: nat,
                      productId: string, stored: seq<MediaItem>, files: seq<File>,
                      uuids: nat -> string): Outcome
    requires si < |sellers| && pi < |products|
  {
    var seller := sellers[si];
    var items := Items(seller.id, files, uuids);
    if files == [] then Outcome(NoFiles, sellers, products, stored)
    else match FirstOversized(seller.uploadLimits, items)
      case Some(k) => Outcome(TooLarge(files[k]), sellers, products, stored + items[..k])
      case None =>
        Outcome(Uploaded(productId, items),
                sellers[si := Charge(seller, items)],
                products[pi := Attach(products[pi], items)],
                stored + items)
  }

  /**
   * `POST /api/media/upload`. `newId` is the id a created product gets,
   * `parseFloat` reads the price text, `uuids(i)` is the identifier drawn
   * for the i-th file.
   */
  function UploadSpec(sellers: seq<SellerModel.Seller>, products: seq<Product>, stored: seq<MediaItem>,
                      jar: CookieJar, now: int, header: Option<string>, form: seq<FormEntry>,
                      newId: string, parseFloat: string -> Option<real>, uuids: nat -> string): Outcome
  {
    match Authorize(sellers, jar, now)
    case Denied(reply) => Outcome(reply, sellers, products, stored)
    case SignedIn(si) =>
      match ChooseProduct(products, sellers[si].id, header, form, newId, parseFloat)
      case Rejected(reply) => Outcome(reply, sellers, products, stored)
      case Chosen(ps, pi, productId) =>
        StoreFiles(sellers, si, ps, pi, productId, stored, Files(form), uuids)
  }

  // ---- The handler ----

  /** The first loop: every file entry of the form, in order. */
  method CollectFiles(form: seq<FormEntry>) returns (files: seq<File>)
    ensures files == Files(form)
  {
    files := [];
    var i := 0;
    while i < |form|
      invariant 0 <= i <= |form|
      invariant files == Files(form[..i])
    {
      assert form[..i + 1][..i] == form[..i];
      if form[i].value.FieldFile? {
        files := files + [form[i].value.file];
      }
      i := i + 1;
    }
    assert form[..i] == form;
  }

  /** The second loop: gate each file, write it, and record its item; stops at the first oversized file. */
  method WriteFiles(dir: UploadDir, seller: SellerModel.Seller, files: seq<File>, uuids: nat -> string)
    returns (items: seq<MediaItem>, tooLarge: Option<nat>)
    modifies dir
    ensures tooLarge == FirstOversized(seller.uploadLimits, Items(seller.id, files, uuids))
    ensures tooLarge.None? ==> items == Items(seller.id, files, uuids)
    ensures tooLarge.Some? ==> items == Items(seller.id, files, uuids)[..tooLarge.value]
    ensures dir.items == old(dir.items) + items
  {
    items, tooLarge := WriteItems(dir, seller.uploadLimits, Items(seller.id, files, uuids));
  }

  /** The loop itself, over the items the files stand for: each is gated, then written. */
  method WriteItems(dir: UploadDir, limits: SellerModel.UploadLimits, all: seq<MediaItem>)
    returns (items: seq<MediaItem>, tooLarge: Option<nat>)
    modifies dir
    ensures tooLarge == FirstOversized(limits, all)
    ensures tooLarge.None? ==> items == all
    ensures tooLarge.Some? ==> items == all[..tooLarge.value]
    ensures dir.items == old(dir.items) + items
  {
    items := [];
    var i := 0;
    while i < |all|
      invariant 0 <= i <= |all|
      invariant items == all[..i]
      invariant dir.items == old(dir.items) + items
      invariant forall j :: 0 <= j < i ==> !Oversized(limits, all[j])
    {
      if Oversized(limits, all[i]) {
        FirstOversizedIs(limits, all, i);
        tooLarge := Some(i);
        return;
      }
      var item := all[i];
      dir.items := dir.items + [item];
      assert all[..i + 1] == all[..i] + [item];
      items := items + [item];
      i := i + 1;
    }
    assert all[..i] == all;
    tooLarge := None;
  }

  method Upload(sellers: Database.SellerCollection, products: Database.ProductCollection, dir: UploadDir,
                jar: CookieJar, now: int, header: Option<string>, form: seq<FormEntry>,
                newId: string, parseFloat: string -> Option<real>, uuids: nat -> string)
    returns (reply: UploadReply)
    modifies sellers, products, dir
    ensures Outcome(reply, sellers.records, products.records, dir.items)
            == UploadSpec(old(sellers.records), old(products.records), old(dir.items),
                          jar, now, header, form, newId, parseFloat, uuids)
  {
    var caller := Authorize(sellers.records, jar, now);
    if caller.Denied? {
      return caller.reply;
    }
    var si := caller.index;
    var seller := sellers.records[si];
    var target := ChooseProduct(products.records, seller.id, header, form, newId, parseFloat);
    if target.Rejected? {
      return target.reply;
    }
    products.records := target.products;
    var files := CollectFiles(form);
    if files == [] {
      return NoFiles;
    }
    var items, tooLarge := WriteFiles(dir, seller, files, uuids);
    if tooLarge.Some? {
      return TooLarge(files[tooLarge.value]);
    }
    var pi := target.index;
    products.records := products.records[pi := Attach(products.records[pi], items)];
    sellers.records := sellers.records[si := Charge(seller, items)];
    reply := Uploaded(target.productId, items);
  }

  // ---- What the route promises ----

  /** Nothing is stored and nothing is charged without a verified token naming a known seller. */
  lemma UploadNeedsSeller(sellers: seq<SellerModel.Seller>, products: seq<Product>, stored: seq<MediaItem>,
                          jar: CookieJar, now: int, header: Option<string>, form: seq<FormEntry>,
                          newId: string, parseFloat: string -> Option<real>, uuids: nat -> string)
    ensures var o := UploadSpec(sellers, products, stored, jar, now, header, form, newId, parseFloat, uuids);
            Authorize(sellers, jar, now).Denied? ==>
              o.reply.Refused? && o.reply.status == 401 && o.sellers == sellers
              && o.products == products && o.stored == stored
  {
  }

  /** Files for a named product land only on that product, and only when it is the caller's own. */
  lemma OwnProductOnly(sellers: seq<SellerModel.Seller>, products: seq<Product>, stored: seq<MediaItem>,
                       jar: CookieJar, now: int, id: string, form: seq<FormEntry>,
                       newId: string, parseFloat: string -> Option<real>, uuids: nat -> string)
    requires id != ""
    ensures var o := UploadSpec(sellers, products, stored, jar, now, Some(id), form, newId, parseFloat, uuids);
            o.reply.Uploaded? ==>
              var si := Authorize(sellers, jar, now).index;
              var k := ProductIndex(products, id).value;
              ProductIndex(products, id).Some? && products[k].sellerId == sellers[si].id
              && o.reply.productId == id && |o.products| == |products|
              && (forall j :: 0 <= j < |products| && j != k ==> o.products[j] == products[j])
    ensures var o := UploadSpec(sellers, products, stored, jar, now, Some(id), form, newId, parseFloat, uuids);
            Authorize(sellers, jar, now).SignedIn? ==>
              var si := Authorize(sellers, jar, now).index;
              (ProductIndex(products, id).None? || products[ProductIndex(products, id).value].sellerId != sellers[si].id)
              <==> o.reply == InvalidProduct
  {
    var o := UploadSpec(sellers, products, stored, jar, now, Some(id), form, newId, parseFloat, uuids);
    var c := Authorize(sellers, jar, now);
    if c.SignedIn? {
      var t := ChooseProduct(products, sellers[c.index].id, Some(id), form, newId, parseFloat);
      if t.Chosen? {
        var files := Files(form);
        var items := Items(sellers[c.index].id, files, uuids);
        if files != [] && FirstOversized(sellers[c.index].uploadLimits, items).None? {
          assert o.products == products[t.index := Attach(products[t.index], items)];
        }
      }
    }
  }

  /** Without a product header, the created product takes each fallback the form leaves empty. */
  lemma CreatedProductDefaults(sellerKey: string, newId: string, parseFloat: string -> Option<real>)
    requires sellerKey != "" && parseFloat("0").Some?
    ensures var p := NewProduct(sellerKey, [], newId, parseFloat);
            p.Some? && p.value.id == newId && p.value.sellerId == sellerKey
            && p.value.title == "Untitled Product" && p.value.description == "No description"
            && p.value.category == "uncategorized" && p.value.currency == "USD"
            && p.value.price == parseFloat("0").value
            && p.value.status == Draft && p.value.images == [] && p.value.videos == [] && p.value.documents == []
  {
    assert Text.Trim("Untitled Product") == "Untitled Product" by {
      Text.TrimNoEdgeSpace("Untitled Product");
    }
    assert Text.Trim("No description") == "No description" by {
      Text.TrimNoEdgeSpace("No description");
    }
  }

  /** A form of only blanks in the title still creates nothing: the blank title is kept and then fails validation. */
  lemma BlankTitleFails(sellerKey: string, newId: string, parseFloat: string -> Option<real>)
    ensures NewProduct(sellerKey, [FormEntry("title", FieldText(" "))], newId, parseFloat).None?
  {
    var form := [FormEntry("title", FieldText(" "))];
    Lookup.FirstIndexIs(form, e => Named("title", e), 0);
    assert FormText(form, "title", "Untitled Product") == " ";
    Text.TrimStartFacts(" ");
  }

  /** A form without files is refused with 400, but a product created for it stays in the store. */
  lemma NoFilesKeepsCreatedProduct(sellers: seq<SellerModel.Seller>, products: seq<Product>, stored: seq<MediaItem>,
                                   jar: CookieJar, now: int, form: seq<FormEntry>,
                                   newId: string, parseFloat: string -> Option<real>, uuids: nat -> string)
    requires Authorize(sellers, jar, now).SignedIn?
    requires NewProduct(sellers[Authorize(sellers, jar, now).index].id, form, newId, parseFloat).Some?
    requires forall i :: 0 <= i < |form| ==> !form[i].value.FieldFile?
    ensures var o := UploadSpec(sellers, products, stored, jar, now, None, form, newId, parseFloat, uuids);
            o.reply == NoFiles
            && o.products == products + [NewProduct(sellers[Authorize(sellers, jar, now).index].id, form, newId, parseFloat).value]
            && o.sellers == sellers && o.stored == stored
  {
  }

  /**
   * The size gate: 413 exactly when some image or video is over its limit,
   * naming the first one; the files before it are already stored, and
   * neither the product nor the seller's counter is updated.
   */
  lemma SizeGate(sellers: seq<SellerModel.Seller>, si: nat, products: seq<Product>, pi: nat,
                 productId: string, stored: seq<MediaItem>, files: seq<File>, uuids: nat -> string)
    requires si < |sellers| && pi < |products| && files != []
    ensures var o := StoreFiles(sellers, si, products, pi, productId, stored, files, uuids);
            var limits := sellers[si].uploadLimits;
            o.reply.Refused? && o.reply.status == 413
            <==> exists j :: 0 <= j < |files|
                   && ((GetKind(files[j].mimeType) == Image && BytesToCentiMB(files[j].size) > 100 * limits.maxImageSizeMB)
                       || (GetKind(files[j].mimeType) == Video && BytesToCentiMB(files[j].size) > 100 * limits.maxVideoSizeMB))
    ensures var o := StoreFiles(sellers, si, products, pi, productId, stored, files, uuids);
            var items := Items(sellers[si].id, files, uuids);
            var first := FirstOversized(sellers[si].uploadLimits, items);
            first.Some? ==>
              o.reply == TooLarge(files[first.value]) && o.sellers == sellers && o.products == products
              && o.stored == stored + items[..first.value] && |o.stored| == |stored| + first.value
  {
    var limits := sellers[si].uploadLimits;
    var items := Items(sellers[si].id, files, uuids);
    var first := FirstOversized(limits, items);
    if first.Some? {
      var j := first.value;
      assert items[j] == Item(sellers[si].id, files[j], uuids(j));
    } else {
      forall j | 0 <= j < |files|
        ensures !((GetKind(files[j].mimeType) == Image && BytesToCentiMB(files[j].size) > 100 * limits.maxImageSizeMB)
                  || (GetKind(files[j].mimeType) == Video && BytesToCentiMB(files[j].size) > 100 * limits.maxVideoSizeMB))
      {
        assert items[j] == Item(sellers[si].id, files[j], uuids(j));
        assert !Oversized(limits, items[j]);
      }
    }
  }

  /** Documents and promotional files are never refused for size, however large. */
  lemma DocumentsNeverTooLarge(limits: SellerModel.UploadLimits, sellerKey: string, f: File, uuid: string)
    requires GetKind(f.mimeType) == Pdf || GetKind(f.mimeType) == Promo
    ensures !Oversized(limits, Item(sellerKey, f, uuid))
  {
  }

  /** Every uploaded item goes into exactly one of the three lists, as often as it was uploaded. */
  lemma PartitionExact(items: seq<MediaItem>)
    ensures multiset(Lists.Filter(items, IsImage)) + multiset(Lists.Filter(items, IsVideo))
            + multiset(Lists.Filter(items, IsDocument)) == multiset(items)
  {
    forall x: MediaItem
      ensures (multiset(Lists.Filter(items, IsImage)) + multiset(Lists.Filter(items, IsVideo))
               + multiset(Lists.Filter(items, IsDocument)))[x] == multiset(items)[x]
    {
      Lists.FilterMultiset(items, IsImage, x);
      Lists.FilterMultiset(items, IsVideo, x);
      Lists.FilterMultiset(items, IsDocument, x);
    }
  }

  /** Each list receives only items of its own kinds. */
  lemma PartitionByKind(p: Product, items: seq<MediaItem>)
    ensures var r := Attach(p, items);
            (forall i :: |p.images| <= i < |r.images| ==> r.images[i].kind == Image)
            && (forall i :: |p.videos| <= i < |r.videos| ==> r.videos[i].kind == Video)
            && (forall i :: |p.documents| <= i < |r.documents| ==> r.documents[i].kind in {Pdf, Promo})
  {
    var r := Attach(p, items);
    forall i | |p.images| <= i < |r.images| ensures r.images[i].kind == Image {
      assert r.images[i] == Lists.Filter(items, IsImage)[i - |p.images|];
    }
    forall i | |p.videos| <= i < |r.videos| ensures r.videos[i].kind == Video {
      assert r.videos[i] == Lists.Filter(items, IsVideo)[i - |p.videos|];
    }
    forall i | |p.documents| <= i < |r.documents| ensures r.documents[i].kind in {Pdf, Promo} {
      assert r.documents[i] == Lists.Filter(items, IsDocument)[i - |p.documents|];
    }
  }

  /** The sizes are never negative, so the counter only rises. */
  lemma {:induction false} TotalSizeNonNegative(items: seq<MediaItem>)
    ensures TotalSize(items) >= 0
  {
    if items != [] {
      TotalSizeNonNegative(items[..|items| - 1]);
    }
  }

  /** The total over a stored list is the sum over its parts. */
  lemma {:induction false} TotalSizeAppend(a: seq<MediaItem>, b: seq<MediaItem>)
    ensures TotalSize(a + b) == TotalSize(a) + TotalSize(b)
    decreases |b|
  {
    if b != [] {
      assert (a + b)[..|a + b| - 1] == a + b[..|b| - 1];
      TotalSizeAppend(a, b[..|b| - 1]);
    } else {
      assert a + b == a;
    }
  }

  /**
   * A successful upload charges the seller exactly the items' total size,
   * touches no other seller, and never compares the counter with the
   * seller's storage limit: the outcome is the same whatever the counter
   * and the limit were.
   */
  lemma StorageCharged(sellers: seq<SellerModel.Seller>, si: nat, products: seq<Product>, pi: nat,
                       productId: string, stored: seq<MediaItem>, files: seq<File>, uuids: nat -> string,
                       used: int, limit: int)
    requires si < |sellers| && pi < |products|
    ensures var o := StoreFiles(sellers, si, products, pi, productId, stored, files, uuids);
            o.reply.Uploaded? ==>
              |o.sellers| == |sellers|
              && o.sellers[si].storageUsedCentiMB == sellers[si].storageUsedCentiMB + TotalSize(o.reply.items)
              && o.sellers[si].storageUsedCentiMB >= sellers[si].storageUsedCentiMB
              && forall j :: 0 <= j < |sellers| && j != si ==> o.sellers[j] == sellers[j]
    ensures var other := sellers[si := sellers[si].(storageUsedCentiMB := used, storageLimitMB := limit)];
            StoreFiles(other, si, products, pi, productId, stored, files, uuids).reply
            == StoreFiles(sellers, si, products, pi, productId, stored, files, uuids).reply
  {
    TotalSizeNonNegative(Items(sellers[si].id, files, uuids));
    var other := sellers[si := sellers[si].(storageUsedCentiMB := used, storageLimitMB := limit)];
    assert other[si].id == sellers[si].id && other[si].uploadLimits == sellers[si].uploadLimits;
  }
}
