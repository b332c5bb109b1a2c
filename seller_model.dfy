/**
 * The seller record of the seller store: the paths the schema declares that
 * the handlers read or write, the schema's setters (trim, lowercase) and
 * defaults, and the unique indexes on `sellerId`, `email` and `phone`.
 */
module SellerModel {
  import opened Wrappers
  import opened Text
  import Lookup

  datatype AccountStatus = Pending | Active | Suspended | Banned
  datatype KycStatus = KycNone | KycSubmitted | KycApproved | KycRejected

  datatype UploadLimits = UploadLimits(
    maxProducts: nat,
    maxVideosPerProduct: nat,
    maxImagesPerProduct: nat,
    maxVideoSizeMB: nat,
    maxImageSizeMB: nat)

  const DefaultUploadLimits: UploadLimits := UploadLimits(500, 3, 6, 100, 5)
  const DefaultStorageLimitMB: nat := 5000

  /**
   * `id` is the document's `_id`. Storage is counted in hundredths of a
   * megabyte, the unit sizes are rounded to. The two version paths are not
   * declared by the schema, so they may be absent.
   */
  datatype Seller = Seller(
    id: string,
    sellerId: string,
    businessName: string,
    fullName: string,
    email: string,
    phone: string,
    country: string,
    currency: string,
    password: string,
    isEmailVerified: bool,
    emailVerificationToken: Option<string>,
    emailVerificationExpires: Option<int>,
    isPhoneVerified: bool,
    phoneVerificationCode: Option<string>,
    status: AccountStatus,
    failedLoginAttempts: int,
    lastFailedLoginAt: Option<int>,
    lastLoginAt: Option<int>,
    lastLoginIp: Option<string>,
    kycStatus: KycStatus,
    uploadLimits: UploadLimits,
    storageUsedCentiMB: int,
    storageLimitMB: int,
    tokenVersion: Option<int>,
    refreshTokenVersion: Option<int>)

  /** The top-level paths the seller schema declares; an undeclared path is neither cast nor defaulted. */
  const DeclaredPaths: set<string> := {
    "sellerId", "businessName", "fullName", "email", "phone", "country", "currency", "password",
    "isEmailVerified", "emailVerificationToken", "emailVerificationExpires",
    "isPhoneVerified", "phoneVerificationCode", "phoneVerificationExpires", "status",
    "failedLoginAttempts", "lastFailedLoginAt", "lastLoginAt", "lastLoginIp",
    "kycStatus", "kycDocuments", "allowAffiliateAutoAccess", "defaultCommissionRate", "payoutThreshold",
    "uploadLimits", "totalProducts", "totalOrders", "totalEarnings", "pendingPayout",
    "views", "clicks", "conversions", "conversionRate", "storageUsedMB", "storageLimitMB",
    "apiKey", "apiKeyCreatedAt"}

  /** Neither version field is a schema path, although the record's interface lists one. */
  lemma NoVersionPath()
    ensures "tokenVersion" !in DeclaredPaths && "refreshTokenVersion" !in DeclaredPaths
  {
  }

  /** A string a required path accepts once its setters ran: anything but the empty string. */
  predicate Present(s: string) { s != "" }

  /**
   * `Seller.create` with the paths the signup handler gives: the setters
   * trim business name, full name, email and phone and lowercase the email,
   * the rest takes the schema's defaults, and a required path left empty
   * fails validation (None).
   */
  function Create(id: string, sellerId: string, businessName: string, fullName: string,
                  email: string, phone: string, country: string, currency: string, password: string,
                  token: string, expires: int): (r: Option<Seller>)
    ensures r.Some? <==> Present(sellerId) && Present(Trim(businessName)) && Present(Trim(fullName))
                         && Present(Trim(ToLower(email))) && Present(Trim(phone)) && Present(country)
                         && Present(currency) && Present(password)
    ensures r.Some? ==> r.value.id == id && r.value.sellerId == sellerId
                        && r.value.email == Trim(ToLower(email)) && r.value.phone == Trim(phone)
                        && r.value.businessName == Trim(businessName) && r.value.fullName == Trim(fullName)
                        && r.value.country == country && r.value.currency == currency
                        && r.value.password == password
    ensures r.Some? ==> r.value.status == Pending && !r.value.isEmailVerified && !r.value.isPhoneVerified
                        && r.value.failedLoginAttempts == 0 && r.value.kycStatus == KycNone
                        && r.value.uploadLimits == DefaultUploadLimits
                        && r.value.storageUsedCentiMB == 0 && r.value.storageLimitMB == 5000
                        && r.value.emailVerificationToken == Some(token)
                        && r.value.emailVerificationExpires == Some(expires)
                        && r.value.tokenVersion.None? && r.value.refreshTokenVersion.None?
  {
    var s := Seller(id, sellerId, Trim(businessName), Trim(fullName), Trim(ToLower(email)), Trim(phone),
                    country, currency, password,
                    false, Some(token), Some(expires), false, None, Pending,
                    0, None, None, None, KycNone, DefaultUploadLimits, 0, DefaultStorageLimitMB,
                    None, None);
    if Present(s.sellerId) && Present(s.businessName) && Present(s.fullName) && Present(s.email)
       && Present(s.phone) && Present(country) && Present(currency) && Present(password)
    then Some(s) else None
  }

  /** `Seller.findById(id)`: the seller whose `_id` is `id`. */
  function FindById(store: seq<Seller>, id: string): (r: Option<nat>)
    ensures r.Some? ==> r.value < |store| && store[r.value].id == id
    ensures r.None? ==> forall k :: 0 <= k < |store| ==> store[k].id != id
  {
    Lookup.FirstIndex(store, (s: Seller) => s.id == id)
  }

  /** `Seller.findOne({ email })`: the first seller stored with exactly this email. */
  function FindByEmail(store: seq<Seller>, email: string): (r: Option<nat>)
    ensures r.Some? ==> r.value < |store| && store[r.value].email == email
    ensures r.Some? ==> forall k :: 0 <= k < r.value ==> store[k].email != email
    ensures r.None? ==> forall k :: 0 <= k < |store| ==> store[k].email != email
  {
    Lookup.FirstIndex(store, (s: Seller) => s.email == email)
  }

  /** Normal form of a stored email: lowercased, then trimmed. */
  predicate NormalEmail(e: string) { e == Trim(ToLower(e)) }

  /** The store's unique indexes: no two sellers share an `_id`, a `sellerId`, an email or a phone. */
  predicate UniqueKeys(store: seq<Seller>) {
    forall i, j :: 0 <= i < j < |store| ==>
      store[i].id != store[j].id && store[i].sellerId != store[j].sellerId
      && store[i].email != store[j].email && store[i].phone != store[j].phone
  }

  predicate Clashes(a: Seller, b: Seller) {
    a.id == b.id || a.sellerId == b.sellerId || a.email == b.email || a.phone == b.phone
  }

  /** An insert the unique indexes accept is appended; one that repeats a key is refused (None). */
  function Insert(store: seq<Seller>, s: Seller): (r: Option<seq<Seller>>)
    ensures r.Some? <==> forall k :: 0 <= k < |store| ==> !Clashes(store[k], s)
    ensures r.Some? ==> r.value == store + [s]
    ensures UniqueKeys(store) && r.Some? ==> UniqueKeys(r.value)
  {
    if forall k :: 0 <= k < |store| ==> !Clashes(store[k], s) then Some(store + [s]) else None
  }

  /** Writing a record back over itself keeps the indexes as long as its keys are unchanged. */
  lemma {:induction false} SaveKeepsKeys(store: seq<Seller>, i: nat, s: Seller)
    requires UniqueKeys(store) && i < |store|
    requires s.id == store[i].id && s.sellerId == store[i].sellerId
    requires s.email == store[i].email && s.phone == store[i].phone
    ensures UniqueKeys(store[i := s])
  {
    var t := store[i := s];
    forall a, b | 0 <= a < b < |t|
      ensures t[a].id != t[b].id && t[a].sellerId != t[b].sellerId
      ensures t[a].email != t[b].email && t[a].phone != t[b].phone
    {
      assert store[a].id != store[b].id;
    }
  }
}
