/**
 * The affiliate record as the affiliate routes see it: they go to the
 * collection through the raw driver, so a document holds exactly the
 * fields some handler wrote, and a path the schema declares a default for
 * may be absent (Option). `Hydrate` is the same document read through the
 * schema, which fills those defaults.
 */
module AffiliateModel {
  import opened Wrappers
  import SellerModel
  import Lookup

  type AccountStatus = SellerModel.AccountStatus
  type KycStatus = SellerModel.KycStatus

  datatype PayoutStatus = PayoutPending | PayoutProcessing | PayoutPaid | PayoutFailed

  /** One payout entry; amounts are in cents. */
  datatype Payout = Payout(payoutId: string, amountCents: int, status: PayoutStatus, createdAt: int, paidAt: Option<int>)

  /** A payout entry created with only its required paths: the schema makes it pending, stamped now, unpaid. */
  function NewPayout(payoutId: string, amountCents: int, now: int): (p: Payout)
    ensures p.payoutId == payoutId && p.amountCents == amountCents
    ensures p.status == PayoutPending && p.createdAt == now && p.paidAt.None?
  {
    Payout(payoutId, amountCents, PayoutPending, now, None)
  }

  const DefaultCommissionRate: real := 10.0
  const DefaultReferralTier: int := 1

  datatype Affiliate = Affiliate(
    id: string,
    affiliateId: string,
    fullName: string,
    email: string,
    password: string,
    phone: Option<string>,
    status: Option<AccountStatus>,
    isEmailVerified: bool,
    isPhoneVerified: bool,
    emailVerificationToken: Option<string>,
    emailVerificationExpires: Option<int>,
    emailVerificationIssuedAt: Option<int>,
    verificationToken: Option<string>,
    verificationTokenExpires: Option<int>,
    verificationTokenIssuedAt: Option<int>,
    lastLoginAt: Option<int>,
    lastLoginIp: Option<string>,
    failedLoginAttempts: Option<int>,
    lastFailedLoginAt: Option<int>,
    kycStatus: Option<KycStatus>,
    commissionRate: real,
    referralCode: string,
    referralTier: int,
    payouts: seq<Payout>,
    apiKey: string,
    refreshTokenVersion: Option<int>,
    isBanned: bool,
    signupIp: string)

  /** The top-level paths the affiliate schema declares. */
  const DeclaredPaths: set<string> := {
    "affiliateId", "fullName", "email", "password", "phone", "avatar", "bio",
    "status", "isEmailVerified", "isPhoneVerified", "emailVerificationToken", "emailVerificationExpires",
    "phoneVerificationCode", "phoneVerificationExpires",
    "lastLoginAt", "lastLoginIp", "failedLoginAttempts", "lastFailedLoginAt",
    "kycStatus", "kycDocuments", "commissionRate", "totalEarnings", "pendingPayout", "lifetimeWithdrawn",
    "payoutMethod", "payouts", "referredBy", "referralCode", "referrals", "referralTier",
    "stats", "trafficSources", "riskScore", "flaggedReasons", "suspiciousIps", "suspiciousActivities",
    "apiKey", "apiKeyCreatedAt", "apiKeyLastUsedAt", "apiRequestCount", "rateLimiter", "refreshTokenVersion"}

  /** The only verification-token paths the schema declares are the `emailVerification…` pair. */
  lemma VerificationPaths()
    ensures "emailVerificationToken" in DeclaredPaths && "emailVerificationExpires" in DeclaredPaths
    ensures "verificationToken" !in DeclaredPaths && "verificationTokenExpires" !in DeclaredPaths
    ensures "isBanned" !in DeclaredPaths
  {
  }

  /** The document read through the schema: absent defaulted paths take their defaults. */
  function Hydrate(a: Affiliate): (h: Affiliate)
    ensures h.status == Some(a.status.GetOr(SellerModel.Pending))
    ensures h.failedLoginAttempts == Some(a.failedLoginAttempts.GetOr(0))
    ensures h.kycStatus == Some(a.kycStatus.GetOr(SellerModel.KycNone))
    ensures h.refreshTokenVersion == Some(a.refreshTokenVersion.GetOr(0))
    ensures h.(status := a.status, failedLoginAttempts := a.failedLoginAttempts,
               kycStatus := a.kycStatus, refreshTokenVersion := a.refreshTokenVersion) == a
  {
    a.(status := Some(a.status.GetOr(SellerModel.Pending)),
       failedLoginAttempts := Some(a.failedLoginAttempts.GetOr(0)),
       kycStatus := Some(a.kycStatus.GetOr(SellerModel.KycNone)),
       refreshTokenVersion := Some(a.refreshTokenVersion.GetOr(0)))
  }

  /** Reading a document through the schema twice changes nothing more. */
  lemma HydrateIdempotent(a: Affiliate)
    ensures Hydrate(Hydrate(a)) == Hydrate(a)
  {
  }

  /** The unique indexes on `affiliateId` and `email` (and the `_id`). */
  predicate UniqueKeys(store: seq<Affiliate>) {
    forall i, j :: 0 <= i < j < |store| ==>
      store[i].id != store[j].id && store[i].affiliateId != store[j].affiliateId && store[i].email != store[j].email
  }
  /** `findOne({ email })`: the first affiliate stored with exactly this email. */
  function FindByEmail(store: seq<Affiliate>, email: string): (r: Option<nat>)
    ensures r.Some? ==> r.value < |store| && store[r.value].email == email
    ensures r.Some? ==> forall k :: 0 <= k < r.value ==> store[k].email != email
    ensures r.None? ==> forall k :: 0 <= k < |store| ==> store[k].email != email
  {
    Lookup.FirstIndex(store, (a: Affiliate) => a.email == email)
  }

  /** `findById(id)`: the affiliate whose `_id` is `id`. */
  function FindById(store: seq<Affiliate>, id: string): (r: Option<nat>)
    ensures r.Some? ==> r.value < |store| && store[r.value].id == id
    ensures r.None? ==> forall k :: 0 <= k < |store| ==> store[k].id != id
  {
    Lookup.FirstIndex(store, (a: Affiliate) => a.id == id)
  }

  predicate Clashes(a: Affiliate, b: Affiliate) {
    a.id == b.id || a.affiliateId == b.affiliateId || a.email == b.email
  }

  /** `insertOne(doc)`: appended when no unique key repeats, refused (the driver throws) otherwise. */
  function Insert(store: seq<Affiliate>, a: Affiliate): (r: Option<seq<Affiliate>>)
    ensures r.Some? <==> forall k :: 0 <= k < |store| ==> !Clashes(store[k], a)
    ensures r.Some? ==> r.value == store + [a]
    ensures UniqueKeys(store) && r.Some? ==> UniqueKeys(r.value)
  {
    if forall k :: 0 <= k < |store| ==> !Clashes(store[k], a) then Some(store + [a]) else None
  }

  /** An update that keeps a record's keys keeps the unique indexes. */
  lemma {:induction false} SaveKeepsKeys(store: seq<Affiliate>, i: nat, a: Affiliate)
    requires UniqueKeys(store) && i < |store|
    requires a.id == store[i].id && a.affiliateId == store[i].affiliateId && a.email == store[i].email
    ensures UniqueKeys(store[i := a])
  {
    var t := store[i := a];
    forall x, y | 0 <= x < y < |t|
      ensures t[x].id != t[y].id && t[x].affiliateId != t[y].affiliateId && t[x].email != t[y].email
    {
      assert store[x].id != store[y].id;
    }
  }
}
