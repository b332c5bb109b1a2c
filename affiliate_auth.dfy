/**
 * The affiliate account routes: signup, email verification, resending the
 * verification email and login. They reach the collection through the
 * raw driver and answer with the JSON envelope; three of them first ask
 * the shared rate limiter about a key built from the client's address.
 * Each route is a specification function from the affiliate store, the
 * rate limiter's cache and the request to the reply and the new state,
 * and a method that performs the same steps on the database and the
 * limiter object.
 */
module AffiliateAuth {
  import opened Wrappers
  import opened Text
  import opened Tokens
  import opened Http
  import opened AffiliateModel
  import SellerModel
  import Lookup
  import Lists
  import Auth
  import RateLimiter
  import Database
  import SellerAuth

  type Store = seq<Affiliate>

  /** A route's answer and the affiliate store it leaves. */
  datatype Step = Step(reply: Reply, store: Store)

  /** The same for a rate-limited route, with the limiter's cache it leaves. */
  datatype LimitedStep = LimitedStep(reply: Reply, store: Store, limits: map<string, nat>)

  const InternalError: Reply := Reply(500, "Internal server error", [], None, None)

  /** How long the emailed verification token is meant to stay valid. */
  const VerificationTtl: int := Day

  // ---------------------------------------------------------------- client address

  predicate IsComma(c: char) {
    c == ','
  }

  /** `split(",")[0]`: everything before the first comma. */
  function FirstEntry(s: string): (r: string)
    ensures ',' !in r && StartsWith(s, r)
  {
    match Lookup.FirstIndex(s, IsComma)
    case None => s
    case Some(k) => s[..k]
  }

  /** The trimmed first entry of `x-forwarded-for`, or "" without the header. */
  function ForwardedIp(xff: Option<string>): string {
    if xff.None? then "" else Trim(FirstEntry(xff.value))
  }

  /** The signup route's address: forwarded-for, else `x-real-ip`, else "0.0.0.0". */
  function SignupClientIp(xff: Option<string>, realIp: Option<string>): (r: string)
    ensures r != ""
    ensures ForwardedIp(xff) != "" ==> r == ForwardedIp(xff)
    ensures ForwardedIp(xff) == "" && realIp.Some? && realIp.value != "" ==> r == realIp.value
  {
    if ForwardedIp(xff) != "" then ForwardedIp(xff)
    else if realIp.Some? && realIp.value != "" then realIp.value
    else "0.0.0.0"
  }

  /** The address the resend and login routes use: forwarded-for, else "0.0.0.0". */
  function ClientIp(xff: Option<string>): (r: string)
    ensures r != ""
  {
    if ForwardedIp(xff) != "" then ForwardedIp(xff) else "0.0.0.0"
  }

  /** A forwarded address holds no comma and no blank at either end. */
  lemma ForwardedIpShape(xff: Option<string>)
    ensures var ip := ForwardedIp(xff);
            ',' !in ip && (ip == [] || (!IsSpace(ip[0]) && !IsSpace(ip[|ip| - 1])))
  {
    if xff.Some? {
      var e := FirstEntry(xff.value);
      TrimIsSlice(e);
      var i, j :| 0 <= i <= j <= |e| && Trim(e) == e[i..j];
      assert forall c :: c in e[i..j] ==> c in e;
    }
  }

  /** Without `x-real-ip` the signup route keys the limiter by the same address as the others. */
  lemma SameAddressWithoutRealIp(xff: Option<string>)
    ensures SignupClientIp(xff, None) == ClientIp(xff)
  {
  }

  // ---------------------------------------------------------------- signup

  /** The signup body; `phone` is optional. */
  datatype SignupInput = SignupInput(fullName: JsonField, email: JsonField, phone: JsonField, password: JsonField)

  /** The signup schema; the phone's length is checked before it is transformed. */
  predicate ValidSignup(b: SignupInput, isEmail: string -> bool) {
    MinText(b.fullName, 2) && |b.fullName.s| <= 200
    && b.email.Text? && isEmail(b.email.s)
    && (b.phone.Missing? || (b.phone.Text? && 6 <= |b.phone.s| <= 30))
    && MinText(b.password, 8)
  }

  /** The characters `/[^\d+]/g` spares. */
  predicate PhoneChar(c: char) {
    '0' <= c <= '9' || c == '+'
  }

  /** `phone || null` after the transform: digits and '+' only, and absent when nothing is left. */
  function StoredPhone(f: JsonField): (r: Option<string>)
    ensures r.Some? ==> r.value != "" && forall i :: 0 <= i < |r.value| ==> PhoneChar(r.value[i])
    ensures r.Some? ==> f.Text? && |r.value| <= |f.s|
  {
    if f.Text? && Lists.Filter(f.s, PhoneChar) != "" then Some(Lists.Filter(f.s, PhoneChar)) else None
  }

  /** A phone that is already digits and '+' is stored as sent. */
  lemma StoredPhoneKeepsDigits(s: string)
    requires s != "" && forall i :: 0 <= i < |s| ==> PhoneChar(s[i])
    ensures StoredPhone(Text(s)) == Some(s)
  {
    Lists.FilterKeepsAll(s, PhoneChar);
  }

  /** `\w`. */
  predicate WordChar(c: char) {
    'a' <= c <= 'z' || 'A' <= c <= 'Z' || '0' <= c <= '9' || c == '_'
  }

  /** The matches of `/\b\w/g`: each word character not preceded by one. */
  function InitialsFrom(s: string, afterWord: bool): (r: string)
    ensures |r| <= |s|
    ensures forall i :: 0 <= i < |r| ==> WordChar(r[i])
  {
    if s == [] then []
    else (if WordChar(s[0]) && !afterWord then [s[0]] else []) + InitialsFrom(s[1..], WordChar(s[0]))
  }

  function Initials(s: string): string {
    InitialsFrom(s, false)
  }

  /** The rest of a word contributes no initial. */
  lemma {:induction false} InsideWord(w: string, rest: string)
    requires forall i :: 0 <= i < |w| ==> WordChar(w[i])
    ensures InitialsFrom(w + rest, true) == InitialsFrom(rest, true)
  {
    if w != [] {
      assert (w + rest)[1..] == w[1..] + rest;
      InsideWord(w[1..], rest);
    } else {
      assert w + rest == rest;
    }
  }

  /** A word followed by a separator gives its first letter, then the initials of what follows. */
  lemma WordThenRest(w: string, sep: char, rest: string)
    requires w != [] && forall i :: 0 <= i < |w| ==> WordChar(w[i])
    requires !WordChar(sep)
    ensures Initials(w + [sep] + rest) == [w[0]] + Initials(rest)
  {
    var s := w + [sep] + rest;
    assert s[1..] == w[1..] + ([sep] + rest);
    InsideWord(w[1..], [sep] + rest);
    assert ([sep] + rest)[1..] == rest;
  }

  /** One hexadecimal digit as `toString("hex").toUpperCase()` writes it. */
  function HexDigit(d: nat): (c: char)
    requires d < 16
    ensures '0' <= c <= '9' || 'A' <= c <= 'F'
  {
    if d < 10 then ('0' as int + d) as char else ('A' as int + d - 10) as char
  }

  function HexDigitValue(c: char): nat {
    if '0' <= c <= '9' then c as int - '0' as int
    else if 'A' <= c <= 'F' then c as int - 'A' as int + 10
    else 0
  }

  /** Two random bytes, read as one number below 65536, in upper-case hex: four digits. */
  function Hex4(n: nat): (r: string)
    requires n < 65536
    ensures |r| == 4
  {
    [HexDigit(n / 4096), HexDigit(n / 256 % 16), HexDigit(n / 16 % 16), HexDigit(n % 16)]
  }

  lemma HexDigitRoundTrip(d: nat)
    requires d < 16
    ensures HexDigitValue(HexDigit(d)) == d
  {
  }

  /** The four digits read back give the number. */
  lemma Hex4RoundTrip(n: nat)
    requires n < 65536
    ensures var h := Hex4(n);
            HexDigitValue(h[0]) * 4096 + HexDigitValue(h[1]) * 256 + HexDigitValue(h[2]) * 16 + HexDigitValue(h[3]) == n
  {
    var h := Hex4(n);
    HexDigitRoundTrip(n / 4096);
    HexDigitRoundTrip(n / 256 % 16);
    HexDigitRoundTrip(n / 16 % 16);
    HexDigitRoundTrip(n % 16);
    assert HexDigitValue(h[0]) == n / 4096 && HexDigitValue(h[1]) == n / 256 % 16;
    assert HexDigitValue(h[2]) == n / 16 % 16 && HexDigitValue(h[3]) == n % 16;
    HexPlaces(n);
  }

  lemma HexPlaces(n: nat)
    requires n < 65536
    ensures n / 4096 * 4096 + n / 256 % 16 * 256 + n / 16 % 16 * 16 + n % 16 == n
  {
    assert n / 256 == n / 4096 * 16 + n / 256 % 16;
    assert n / 16 == n / 256 * 16 + n / 16 % 16;
  }

  /** The leading part of the referral code: up to three initials in capitals, or "AFF". */
  function ReferralPrefix(fullName: string): (r: string)
    ensures 1 <= |r| <= 3
  {
    var ini := Initials(fullName);
    if ini == [] then "AFF" else ToUpper(ini[..if |ini| < 3 then |ini| else 3])
  }

  /** The referral code: the prefix, then two random bytes in upper-case hex. */
  function ReferralCode(fullName: string, random: nat): (r: string)
    requires random < 65536
    ensures 5 <= |r| <= 7
    ensures r[..|r| - 4] == ReferralPrefix(fullName) && r[|r| - 4..] == Hex4(random)
  {
    var p := ReferralPrefix(fullName);
    assert (p + Hex4(random))[..|p|] == p;
    p + Hex4(random)
  }

  /** Every character of a referral code is an upper-case letter, a digit or '_'. */
  lemma ReferralCodeAlphabet(fullName: string, random: nat)
    requires random < 65536
    ensures var r := ReferralCode(fullName, random);
            forall i :: 0 <= i < |r| ==> 'A' <= r[i] <= 'Z' || '0' <= r[i] <= '9' || r[i] == '_'
  {
    var r := ReferralCode(fullName, random);
    var p := ReferralPrefix(fullName);
    forall i | 0 <= i < |r| ensures 'A' <= r[i] <= 'Z' || '0' <= r[i] <= '9' || r[i] == '_' {
      if i < |p| {
        assert r[i] == p[i];
        var ini := Initials(fullName);
        if ini != [] {
          assert WordChar(ini[i]);
        }
      } else {
        assert r[i] == Hex4(random)[i - |p|];
      }
    }
  }
  // ---------------------------------------------------------------- the rate-limit gate

  /**
   * `isRateLimited(key)` with the default limit before the route body:
   * a refused call answers 429 and touches nothing else; otherwise the
   * key's count is raised and the route body's answer and store stand.
   */
  function Gate(limits: map<string, nat>, key: string, tooMany: string, store: Store, body: Step): (r: LimitedStep)
    ensures var d := RateLimiter.Decide(limits, key, RateLimiter.DefaultLimit);
            r.limits == d.entries
            && (d.limited ==> r.reply == Json(429, tooMany) && r.store == store)
            && (!d.limited ==> r.reply == body.reply && r.store == body.store)
  {
    var d := RateLimiter.Decide(limits, key, RateLimiter.DefaultLimit);
    if d.limited then LimitedStep(Json(429, tooMany), store, limits)
    else LimitedStep(body.reply, body.store, d.entries)
  }

  /** A refused call is refused whatever the request holds; an admitted one counts exactly once. */
  lemma GateCounts(limits: map<string, nat>, key: string, tooMany: string, store: Store, body: Step)
    ensures var r := Gate(limits, key, tooMany, store, body);
            && (body.reply.status != 429 ==> (r.reply.status == 429 <==> RateLimiter.Count(limits, key) >= RateLimiter.DefaultLimit))
            && (RateLimiter.Count(limits, key) >= RateLimiter.DefaultLimit ==> r.store == store && r.limits == limits)
            && (RateLimiter.Count(limits, key) < RateLimiter.DefaultLimit ==>
                  RateLimiter.Count(r.limits, key) == RateLimiter.Count(limits, key) + 1)
            && (forall other :: other != key ==> RateLimiter.Count(r.limits, other) == RateLimiter.Count(limits, other))
  {
  }

  // ---------------------------------------------------------------- signup

  const SignupTooMany: string := "Too many requests. Please try again later."
  const AlreadyVerified409: string := "Email already in use. Please log in."
  const Unverified409: string := "An account exists with this email but it has not been verified. Check your inbox or resend verification."
  const SignupOk: string := "Signup successful. Please check your email for a verification link."

  function SignupKey(ip: string): string {
    "affiliate_signup:" + ip
  }

  /** The schema's commission rate on a new document: a fraction, where the schema's own default is a percentage. */
  const SignupCommissionRate: real := 0.1

  /**
   * The document signup inserts: pending and unverified, with the emailed
   * token under `emailVerificationToken` expiring in a day, and with no
   * version, counter or KYC path at all.
   */
  function NewAffiliate(id: string, affiliateId: string, b: SignupInput, hash: string, token: string, now: int,
                        referralCode: string, apiKey: string, ip: string): Affiliate
    requires b.fullName.Text? && b.email.Text?
  {
    Affiliate(id, affiliateId, b.fullName.s, NormalizeEmail(b.email.s), hash, StoredPhone(b.phone),
              Some(SellerModel.Pending), false, false,
              Some(token), Some(now + VerificationTtl), Some(now),
              None, None, None,
              None, None, None, None, None,
              SignupCommissionRate, referralCode, DefaultReferralTier, [], apiKey, None, false, ip)
  }

  /**
   * The signup route after the limiter: `body` is None when it is not
   * JSON; `newId`, `uuid`, `hash`, `token`, `random` and `apiKey` are the
   * fresh `_id`, the random UUID, the password hash, the verification
   * token, the two random bytes of the referral code and the API key. The
   * email is sent without waiting, so its fate does not reach the answer.
   */
  function SignupBody(store: Store, body: Option<SignupInput>, isEmail: string -> bool, ip: string, now: int,
                      newId: string, uuid: string, hash: string, token: string, random: nat, apiKey: string): (r: Step)
    requires random < 65536
    ensures r.reply.status in {201, 400, 409, 500}
  {
    if body.None? then Step(Json(400, "Invalid JSON body"), store)
    else if !ValidSignup(body.value, isEmail) then Step(Json(400, "Invalid input data"), store)
    else
      var b := body.value;
      var email := NormalizeEmail(b.email.s);
      match FindByEmail(store, email)
      case Some(k) => Step(Json(409, if store[k].isEmailVerified then AlreadyVerified409 else Unverified409), store)
      case None =>
        var doc := NewAffiliate(newId, uuid, b, hash, token, now, ReferralCode(b.fullName.s, random), apiKey, ip);
        match Insert(store, doc)
        case None => Step(InternalError, store)
        case Some(inserted) => Step(Reply(201, SignupOk, [], None, Some(Mail(email, token))), inserted)
  }

  /** `POST /api/auth/affiliate/signup`. */
  function SignupSpec(store: Store, limits: map<string, nat>, xff: Option<string>, realIp: Option<string>,
                      body: Option<SignupInput>, isEmail: string -> bool, now: int,
                      newId: string, uuid: string, hash: string, token: string, random: nat, apiKey: string): (r: LimitedStep)
    requires random < 65536
    ensures r.reply.status in {201, 400, 409, 429, 500}
  {
    var ip := SignupClientIp(xff, realIp);
    Gate(limits, SignupKey(ip), SignupTooMany, store,
         SignupBody(store, body, isEmail, ip, now, newId, uuid, hash, token, random, apiKey))
  }

  /**
   * What the signup body does: 400 exactly for a body that is not JSON or
   * that the schema refuses, 409 exactly for a normalised email already
   * stored (with the message telling a verified account from an
   * unverified one), and otherwise at most one record appended, with 201
   * exactly when it was; the unique indexes survive.
   */
  lemma SignupContract(store: Store, body: Option<SignupInput>, isEmail: string -> bool, ip: string, now: int,
                       newId: string, uuid: string, hash: string, token: string, random: nat, apiKey: string)
    requires random < 65536
    ensures var r := SignupBody(store, body, isEmail, ip, now, newId, uuid, hash, token, random, apiKey);
            && (r.reply.status == 400 <==> body.None? || !ValidSignup(body.value, isEmail))
            && (r.reply.status == 409 <==>
                  body.Some? && ValidSignup(body.value, isEmail)
                  && FindByEmail(store, NormalizeEmail(body.value.email.s)).Some?)
            && (r.reply.status == 409 ==>
                  var k := FindByEmail(store, NormalizeEmail(body.value.email.s)).value;
                  r.reply.message == if store[k].isEmailVerified then AlreadyVerified409 else Unverified409)
            && (r.store == store || (|r.store| == |store| + 1 && r.store[..|store|] == store))
            && (r.reply.status == 201 <==> r.store != store)
            && (r.reply.status == 201 ==> r.reply.mail == Some(Mail(NormalizeEmail(body.value.email.s), token)))
            && (UniqueKeys(store) ==> UniqueKeys(r.store))
  {
    var r := SignupBody(store, body, isEmail, ip, now, newId, uuid, hash, token, random, apiKey);
    if r.store != store {
      assert r.store[..|store|] == store;
    }
  }

  /**
   * The record a successful signup appends: the normalised email, the
   * transformed phone, the referral code, pending and unverified, the
   * token under `emailVerificationToken` expiring a day from now, no
   * `verificationToken`, and no version path, which the schema reads as 0.
   */
  lemma SignupRecord(store: Store, body: Option<SignupInput>, isEmail: string -> bool, ip: string, now: int,
                     newId: string, uuid: string, hash: string, token: string, random: nat, apiKey: string)
    requires random < 65536
    ensures var r := SignupBody(store, body, isEmail, ip, now, newId, uuid, hash, token, random, apiKey);
            r.reply.status == 201 ==>
              var b := body.value;
              var a := r.store[|store|];
              a.id == newId && a.affiliateId == uuid && a.password == hash && a.signupIp == ip
              && a.email == NormalizeEmail(b.email.s) && a.phone == StoredPhone(b.phone)
              && a.referralCode == ReferralCode(b.fullName.s, random)
              && a.status == Some(SellerModel.Pending) && !a.isEmailVerified && !a.isBanned
              && a.emailVerificationToken == Some(token) && a.emailVerificationExpires == Some(now + VerificationTtl)
              && a.verificationToken.None? && a.failedLoginAttempts.None?
              && a.refreshTokenVersion.None? && Hydrate(a).refreshTokenVersion == Some(0)
  {
  }

  // ---------------------------------------------------------------- verify

  predicate HoldsResendToken(a: Affiliate, token: string) {
    a.verificationToken == Some(token)
  }

  /** `findOne({ verificationToken: token })`. */
  function FindByResendToken(store: Store, token: string): (r: Option<nat>)
    ensures r.Some? ==> r.value < |store| && HoldsResendToken(store[r.value], token)
    ensures r.None? ==> forall k :: 0 <= k < |store| ==> !HoldsResendToken(store[k], token)
  {
    Lookup.FirstIndex(store, (a: Affiliate) => HoldsResendToken(a, token))
  }

  /** `$set: { isEmailVerified: true }, $unset: { verificationToken, verificationTokenIssuedAt }`. */
  function Confirmed(a: Affiliate): Affiliate {
    a.(isEmailVerified := true, verificationToken := None, verificationTokenIssuedAt := None)
  }

  /**
   * `GET /api/auth/affiliate/verify?token=…`, as written: the token is
   * looked up under `verificationToken`, the path only resend writes, and
   * its expiry is never read.
   */
  function VerifySpec(store: Store, token: Option<string>): (r: Step)
    ensures token.None? || token.value == "" ==> r == Step(Json(400, "Missing token"), store)
    ensures r.reply.status in {200, 400}
    ensures r.reply.status == 400 <==> token.None? || token.value == "" || FindByResendToken(store, token.value).None?
    ensures r.reply.status == 400 ==> r.store == store
    ensures r.reply.status == 200 ==>
              var k := FindByResendToken(store, token.value).value;
              r.store == store[k := Confirmed(store[k])]
              && r.store[k].isEmailVerified && r.store[k].verificationToken.None?
              && r.store[k].status == store[k].status
              && r.store[k].verificationTokenExpires == store[k].verificationTokenExpires
  {
    if token.None? || token.value == "" then Step(Json(400, "Missing token"), store)
    else
      match FindByResendToken(store, token.value)
      case None => Step(Json(400, "Invalid or expired token"), store)
      case Some(k) => Step(Json(200, "Email verified successfully"), store[k := Confirmed(store[k])])
  }

  /** A token held by one record works once: the second use finds nothing. */
  lemma VerifySingleUse(store: Store, token: string)
    requires token != ""
    requires forall i, j :: 0 <= i < j < |store| && HoldsResendToken(store[i], token) ==> !HoldsResendToken(store[j], token)
    ensures var first := VerifySpec(store, Some(token));
            first.reply.status == 200 ==> VerifySpec(first.store, Some(token)).reply.status == 400
  {
    var first := VerifySpec(store, Some(token));
    if first.reply.status == 200 {
      var k := FindByResendToken(store, token).value;
      assert forall j :: 0 <= j < |first.store| ==> !HoldsResendToken(first.store[j], token);
    }
  }

  /** The expiry resend writes is never consulted: a token verifies however late it is used. */
  lemma VerifyIgnoresExpiry(store: Store, token: string, k: nat)
    requires token != "" && k < |store| && HoldsResendToken(store[k], token)
    ensures VerifySpec(store, Some(token)).reply.status == 200
  {
  }

  // ---------------------------------------------------------------- resend

  const ResendTooMany: string := "Too many requests. Try again later."

  function ResendKey(ip: string): string {
    "resend:" + ip
  }

  /** Resend's write: the new token and expiry under the `verificationToken…` paths. */
  function Resent(a: Affiliate, now: int, token: string): Affiliate {
    a.(verificationToken := Some(token), verificationTokenExpires := Some(now + VerificationTtl))
  }

  /** The unverified affiliate a resend writes to. */
  function ResendTarget(store: Store, body: Option<JsonField>, isEmail: string -> bool): (r: Option<nat>)
    ensures r.Some? ==> r.value < |store| && !store[r.value].isEmailVerified
  {
    if body.None? || !body.value.Text? || !isEmail(body.value.s) then None
    else
      match FindByEmail(store, NormalizeEmail(body.value.s))
      case None => None
      case Some(k) => if store[k].isEmailVerified then None else Some(k)
  }

  /** The resend route after the limiter; `body` is the `email` field, None when the body is not JSON. */
  function ResendBody(store: Store, body: Option<JsonField>, isEmail: string -> bool, now: int, token: string): (r: Step)
    ensures r.reply.status in {200, 400, 404}
    ensures body.None? || !body.value.Text? || !isEmail(body.value.s) ==> r.reply.status == 400 && r.store == store
    ensures r.reply.status == 404 <==>
              body.Some? && body.value.Text? && isEmail(body.value.s)
              && FindByEmail(store, NormalizeEmail(body.value.s)).None?
    ensures ResendTarget(store, body, isEmail).None? ==> r.store == store && r.reply.status != 200
    ensures ResendTarget(store, body, isEmail).Some? ==>
              var k := ResendTarget(store, body, isEmail).value;
              r.reply.status == 200 && r.store == store[k := Resent(store[k], now, token)]
              && r.reply.mail == Some(Mail(NormalizeEmail(body.value.s), token))
              && r.store[k].emailVerificationToken == store[k].emailVerificationToken
  {
    if body.None? then Step(Json(400, "Invalid JSON body"), store)
    else if !body.value.Text? || !isEmail(body.value.s) then Step(Json(400, "Invalid input data"), store)
    else
      var email := NormalizeEmail(body.value.s);
      match FindByEmail(store, email)
      case None => Step(Json(404, "Affiliate account not found"), store)
      case Some(k) =>
        if store[k].isEmailVerified then Step(Json(400, "Email is already verified"), store)
        else Step(Reply(200, "", [], None, Some(Mail(email, token))), store[k := Resent(store[k], now, token)])
  }

  /** `POST /api/auth/affiliate/resend-verification`. */
  function ResendSpec(store: Store, limits: map<string, nat>, xff: Option<string>, body: Option<JsonField>,
                      isEmail: string -> bool, now: int, token: string): (r: LimitedStep)
    ensures r.reply.status in {200, 400, 404, 429}
  {
    Gate(limits, ResendKey(ClientIp(xff)), ResendTooMany, store, ResendBody(store, body, isEmail, now, token))
  }

  /** After a resend, the emailed token verifies (however late), and the account becomes verified. */
  lemma ResendThenVerify(store: Store, body: Option<JsonField>, isEmail: string -> bool, now: int, token: string)
    requires token != "" && ResendTarget(store, body, isEmail).Some?
    requires forall j :: 0 <= j < |store| ==> !HoldsResendToken(store[j], token)
    ensures var k := ResendTarget(store, body, isEmail).value;
            var v := VerifySpec(ResendBody(store, body, isEmail, now, token).store, Some(token));
            v.reply.status == 200 && v.store[k].isEmailVerified
  {
    var k := ResendTarget(store, body, isEmail).value;
    var s1 := ResendBody(store, body, isEmail, now, token).store;
    Lookup.FirstIndexIs(s1, (a: Affiliate) => HoldsResendToken(a, token), k);
  }

  // ---------------------------------------------------------------- login

  const LoginTooMany: string := "Too many login attempts. Try again later."
  const BadLogin: string := "Invalid email or password"

  function LoginKey(ip: string): string {
    "affiliate-login:" + ip
  }

  /** The one cookie a login sets: `token`, a seven-day JWT for the public affiliate id, path "/". */
  function TokenCookie(a: Affiliate, now: int, production: bool): (c: SetCookie)
    ensures c.name == "token" && c.path == "/" && c.maxAge == 604800 && c.httpOnly && c.sameSite == Lax
    ensures c.secure == production
    ensures c.value.Jwt? && c.value.claims.sub == Some(a.affiliateId) && c.value.claims.role == Some("affiliate")
    ensures c.value.claims.tokenVersion.None?
    ensures forall at :: Verify(c.value, at).Some? <==> at < now + 7 * Day
  {
    SetCookie("token", Auth.SignJwt(a.affiliateId, "affiliate", now), "/", Auth.DefaultCookieMaxAge, true, Lax, production)
  }

  /** The affiliate a login reaches the password check for: found, verified, not banned. */
  function LoginTarget(store: Store, body: Option<SellerAuth.LoginInput>, isEmail: string -> bool): (r: Option<nat>)
    ensures r.Some? ==> r.value < |store| && store[r.value].isEmailVerified && !store[r.value].isBanned
  {
    if body.None? || !SellerAuth.ValidLogin(body.value, isEmail) then None
    else
      match FindByEmail(store, NormalizeEmail(body.value.email.s))
      case None => None
      case Some(k) => if !store[k].isEmailVerified || store[k].isBanned then None else Some(k)
  }

  /**
   * The login route after the limiter. The body schema is the seller
   * login's; `matches(plain, hash)` is the password check and `ip` the
   * client address the route read.
   */
  function LoginBody(store: Store, body: Option<SellerAuth.LoginInput>, isEmail: string -> bool,
                     matches: (string, string) -> bool, now: int, ip: string, production: bool): (r: Step)
    ensures r.reply.status in {200, 400, 401, 403}
    ensures r.reply.status == 401 ==> r.reply.message == BadLogin
    ensures r.reply.status != 200 ==> r.reply.cookies == []
  {
    if body.None? then Step(Json(400, "Invalid JSON body"), store)
    else if !SellerAuth.ValidLogin(body.value, isEmail) then Step(Json(400, "Invalid input data"), store)
    else
      match FindByEmail(store, NormalizeEmail(body.value.email.s))
      case None => Step(Json(401, BadLogin), store)
      case Some(k) =>
        var a := store[k];
        if !a.isEmailVerified then Step(Json(403, "Email not verified. Please check your inbox."), store)
        else if a.isBanned then Step(Json(403, "Your account has been suspended. Contact support."), store)
        else if !matches(body.value.password.s, a.password) then
          Step(Json(401, BadLogin),
               store[k := a.(failedLoginAttempts := Lookup.Inc(a.failedLoginAttempts, 1), lastFailedLoginAt := Some(now))])
        else
          Step(Reply(200, "Login successful", [TokenCookie(a, now, production)], None, None),
               store[k := a.(lastLoginAt := Some(now), lastLoginIp := Some(ip), failedLoginAttempts := Some(0))])
  }

  /** `POST /api/auth/affiliate/login`. */
  function LoginSpec(store: Store, limits: map<string, nat>, xff: Option<string>, body: Option<SellerAuth.LoginInput>,
                     isEmail: string -> bool, matches: (string, string) -> bool, now: int, production: bool): (r: LimitedStep)
    ensures r.reply.status in {200, 400, 401, 403, 429}
  {
    var ip := ClientIp(xff);
    Gate(limits, LoginKey(ip), LoginTooMany, store, LoginBody(store, body, isEmail, matches, now, ip, production))
  }

  /**
   * The gates of login: an unknown email is the wrong-password answer;
   * verification is checked before the ban flag, so an unverified banned
   * account hears "not verified"; nothing is written before the password check.
   */
  lemma LoginGates(store: Store, body: Option<SellerAuth.LoginInput>, isEmail: string -> bool,
                   matches: (string, string) -> bool, now: int, ip: string, production: bool)
    ensures var r := LoginBody(store, body, isEmail, matches, now, ip, production);
            && (body.None? || !SellerAuth.ValidLogin(body.value, isEmail) ==> r.reply.status == 400)
            && (LoginTarget(store, body, isEmail).None? ==> r.store == store && r.reply.status != 200)
            && (r.reply.status == 403 <==>
                  body.Some? && SellerAuth.ValidLogin(body.value, isEmail)
                  && var found := FindByEmail(store, NormalizeEmail(body.value.email.s));
                     found.Some? && (!store[found.value].isEmailVerified || store[found.value].isBanned))
            && (r.reply.status == 403 && !store[FindByEmail(store, NormalizeEmail(body.value.email.s)).value].isEmailVerified
                ==> r.reply.message == "Email not verified. Please check your inbox.")
  {
    if body.Some? && SellerAuth.ValidLogin(body.value, isEmail) {
      var found := FindByEmail(store, NormalizeEmail(body.value.email.s));
      if found.Some? {
        var a := store[found.value];
        var r := LoginBody(store, body, isEmail, matches, now, ip, production);
        if !a.isEmailVerified || a.isBanned {
          assert LoginTarget(store, body, isEmail).None? && r.store == store && r.reply.status == 403;
        } else {
          assert LoginTarget(store, body, isEmail) == found && r.reply.status != 403;
        }
      }
    }
  }

  /**
   * Past the gates, a wrong password adds one to the counter (an absent
   * counter becomes 1) and stamps the failure; a right one stamps the
   * login time and address, zeroes the counter and sets the `token` cookie.
   */
  lemma LoginOutcome(store: Store, body: Option<SellerAuth.LoginInput>, isEmail: string -> bool,
                     matches: (string, string) -> bool, now: int, ip: string, production: bool)
    ensures var r := LoginBody(store, body, isEmail, matches, now, ip, production);
            LoginTarget(store, body, isEmail).Some? ==>
              var k := LoginTarget(store, body, isEmail).value;
              var a := store[k];
              if matches(body.value.password.s, a.password) then
                r.reply.status == 200 && r.reply.cookies == [TokenCookie(a, now, production)]
                && r.store == store[k := a.(lastLoginAt := Some(now), lastLoginIp := Some(ip), failedLoginAttempts := Some(0))]
              else
                r.reply.status == 401
                && r.store == store[k := a.(failedLoginAttempts := Some(a.failedLoginAttempts.GetOr(0) + 1),
                                            lastFailedLoginAt := Some(now))]
  {
  }

  /** Every admitted login attempt is counted, a successful one included. */
  lemma LoginCountsEveryAttempt(store: Store, limits: map<string, nat>, xff: Option<string>, body: Option<SellerAuth.LoginInput>,
                                isEmail: string -> bool, matches: (string, string) -> bool, now: int, production: bool)
    requires RateLimiter.Count(limits, LoginKey(ClientIp(xff))) < RateLimiter.DefaultLimit
    ensures var r := LoginSpec(store, limits, xff, body, isEmail, matches, now, production);
            RateLimiter.Count(r.limits, LoginKey(ClientIp(xff))) == RateLimiter.Count(limits, LoginKey(ClientIp(xff))) + 1
            && r.reply == LoginBody(store, body, isEmail, matches, now, ClientIp(xff), production).reply
  {
  }
  // ---------------------------------------------------------------- the verification token, as evidently intended

  /** A record holding the emailed token, not yet expired. */
  predicate HoldsLiveToken(a: Affiliate, token: string, now: int) {
    a.emailVerificationToken == Some(token)
    && a.emailVerificationExpires.Some? && now < a.emailVerificationExpires.value
  }

  function FindByLiveToken(store: Store, token: string, now: int): (r: Option<nat>)
    ensures r.Some? ==> r.value < |store| && HoldsLiveToken(store[r.value], token, now)
    ensures r.None? ==> forall k :: 0 <= k < |store| ==> !HoldsLiveToken(store[k], token, now)
  {
    Lookup.FirstIndex(store, (a: Affiliate) => HoldsLiveToken(a, token, now))
  }

  /** Verification that consumes the declared token paths. */
  function ConfirmedCorrected(a: Affiliate): Affiliate {
    a.(isEmailVerified := true, emailVerificationToken := None, emailVerificationExpires := None,
       emailVerificationIssuedAt := None)
  }

  /**
   * The verify route as evidently intended: the token is looked up under
   * the schema's `emailVerificationToken`, the path signup writes, and
   * only until its expiry.
   */
  function VerifySpecCorrected(store: Store, token: Option<string>, now: int): (r: Step)
    ensures r.reply.status in {200, 400}
    ensures r.reply.status == 400 <==> token.None? || token.value == "" || FindByLiveToken(store, token.value, now).None?
    ensures r.reply.status == 400 ==> r.store == store
    ensures r.reply.status == 200 ==>
              var k := FindByLiveToken(store, token.value, now).value;
              r.store == store[k := ConfirmedCorrected(store[k])] && r.store[k].isEmailVerified
              && r.store[k].emailVerificationToken.None?
  {
    if token.None? || token.value == "" then Step(Json(400, "Missing token"), store)
    else
      match FindByLiveToken(store, token.value, now)
      case None => Step(Json(400, "Invalid or expired token"), store)
      case Some(k) => Step(Json(200, "Email verified successfully"), store[k := ConfirmedCorrected(store[k])])
  }

  /** Resend as evidently intended: the new token goes to the same declared paths. */
  function ResentCorrected(a: Affiliate, now: int, token: string): Affiliate {
    a.(emailVerificationToken := Some(token), emailVerificationExpires := Some(now + VerificationTtl))
  }

  function ResendBodyCorrected(store: Store, body: Option<JsonField>, isEmail: string -> bool, now: int, token: string): (r: Step)
    ensures ResendTarget(store, body, isEmail).None? ==> r.store == store && r.reply.status != 200
    ensures ResendTarget(store, body, isEmail).Some? ==>
              var k := ResendTarget(store, body, isEmail).value;
              r.reply.status == 200 && r.store == store[k := ResentCorrected(store[k], now, token)]
  {
    var r := ResendBody(store, body, isEmail, now, token);
    match ResendTarget(store, body, isEmail)
    case None => r
    case Some(k) => Step(r.reply, store[k := ResentCorrected(store[k], now, token)])
  }

  // ---------------------------------------------------------------- the signup token and the verify route

  /**
   * As written, the token a successful signup emails never verifies: the
   * new record holds it under `emailVerificationToken`, and verify reads
   * `verificationToken`, which no other record holds it under.
   */
  lemma SignupTokenNeverVerifies(store: Store, body: Option<SignupInput>, isEmail: string -> bool, ip: string, now: int,
                                 newId: string, uuid: string, hash: string, token: string, random: nat, apiKey: string)
    requires random < 65536
    requires forall k :: 0 <= k < |store| ==> !HoldsResendToken(store[k], token)
    ensures var r := SignupBody(store, body, isEmail, ip, now, newId, uuid, hash, token, random, apiKey);
            r.reply.status == 201 ==> VerifySpec(r.store, Some(token)).reply.status == 400
  {
    var r := SignupBody(store, body, isEmail, ip, now, newId, uuid, hash, token, random, apiKey);
    if r.reply.status == 201 {
      SignupContract(store, body, isEmail, ip, now, newId, uuid, hash, token, random, apiKey);
      SignupRecord(store, body, isEmail, ip, now, newId, uuid, hash, token, random, apiKey);
      assert forall k :: 0 <= k < |r.store| ==> !HoldsResendToken(r.store[k], token) by {
        forall k | 0 <= k < |r.store| ensures !HoldsResendToken(r.store[k], token) {
          if k < |store| {
            assert r.store[k] == store[k];
          }
        }
      }
    }
  }

  /**
   * With the corrected verify, the emailed token verifies the new account
   * at any time before it expires.
   */
  lemma SignupThenVerifyCorrected(store: Store, body: Option<SignupInput>, isEmail: string -> bool, ip: string, now: int,
                                  newId: string, uuid: string, hash: string, token: string, random: nat, apiKey: string,
                                  later: int)
    requires random < 65536 && token != ""
    requires now <= later < now + VerificationTtl
    requires forall k :: 0 <= k < |store| ==> store[k].emailVerificationToken != Some(token)
    ensures var r := SignupBody(store, body, isEmail, ip, now, newId, uuid, hash, token, random, apiKey);
            r.reply.status == 201 ==>
              var v := VerifySpecCorrected(r.store, Some(token), later);
              v.reply.status == 200 && v.store[|store|].isEmailVerified
  {
    var r := SignupBody(store, body, isEmail, ip, now, newId, uuid, hash, token, random, apiKey);
    if r.reply.status == 201 {
      SignupContract(store, body, isEmail, ip, now, newId, uuid, hash, token, random, apiKey);
      SignupRecord(store, body, isEmail, ip, now, newId, uuid, hash, token, random, apiKey);
      forall k | 0 <= k < |store| ensures !HoldsLiveToken(r.store[k], token, later) {
        assert r.store[k] == store[k];
      }
      Lookup.FirstIndexIs(r.store, (a: Affiliate) => HoldsLiveToken(a, token, later), |store|);
    }
  }

  /** With the corrected pair, a resent token also verifies, until it expires. */
  lemma ResendThenVerifyCorrected(store: Store, body: Option<JsonField>, isEmail: string -> bool, now: int, token: string,
                                  later: int)
    requires token != "" && ResendTarget(store, body, isEmail).Some?
    requires now <= later < now + VerificationTtl
    requires forall j :: 0 <= j < |store| ==> store[j].emailVerificationToken != Some(token)
    ensures var k := ResendTarget(store, body, isEmail).value;
            var v := VerifySpecCorrected(ResendBodyCorrected(store, body, isEmail, now, token).store, Some(token), later);
            v.reply.status == 200 && v.store[k].isEmailVerified
  {
    var k := ResendTarget(store, body, isEmail).value;
    var s1 := ResendBodyCorrected(store, body, isEmail, now, token).store;
    Lookup.FirstIndexIs(s1, (a: Affiliate) => HoldsLiveToken(a, token, later), k);
  }

  // ---------------------------------------------------------------- the routes as they run

  /** Signup: address, limiter, schema, duplicate check, `insertOne`; the email is not awaited. */
  method Signup(db: Database.AffiliateCollection, limiter: RateLimiter.Limiter, xff: Option<string>, realIp: Option<string>,
                body: Option<SignupInput>, isEmail: string -> bool, now: int,
                newId: string, uuid: string, hash: string, token: string, random: nat, apiKey: string)
    returns (reply: Reply)
    requires random < 65536
    modifies db, limiter
    ensures LimitedStep(reply, db.records, limiter.entries)
            == SignupSpec(old(db.records), old(limiter.entries), xff, realIp, body, isEmail, now, newId, uuid, hash, token, random, apiKey)
  {
    var ip := SignupClientIp(xff, realIp);
    var limited := limiter.IsRateLimited(SignupKey(ip), RateLimiter.DefaultLimit);
    if limited {
      return Json(429, SignupTooMany);
    }
    if body.None? {
      return Json(400, "Invalid JSON body");
    }
    var b := body.value;
    if !ValidSignup(b, isEmail) {
      return Json(400, "Invalid input data");
    }
    var email := NormalizeEmail(b.email.s);
    var existing := FindByEmail(db.records, email);
    if existing.Some? {
      var message := if db.records[existing.value].isEmailVerified then AlreadyVerified409 else Unverified409;
      return Json(409, message);
    }
    var code := ReferralCode(b.fullName.s, random);
    var doc := NewAffiliate(newId, uuid, b, hash, token, now, code, apiKey, ip);
    var inserted := Insert(db.records, doc);
    if inserted.None? {
      return InternalError;
    }
    db.records := inserted.value;
    reply := Reply(201, SignupOk, [], None, Some(Mail(email, token)));
  }

  /** Verify, as written: `findOne` by `verificationToken`, then `updateOne` with `$set` and `$unset`. */
  method VerifyEmail(db: Database.AffiliateCollection, token: Option<string>) returns (reply: Reply)
    modifies db
    ensures Step(reply, db.records) == VerifySpec(old(db.records), token)
  {
    if token.None? || token.value == "" {
      return Json(400, "Missing token");
    }
    var found := FindByResendToken(db.records, token.value);
    if found.None? {
      return Json(400, "Invalid or expired token");
    }
    var k := found.value;
    var a := db.records[k];
    db.records := db.records[k := a.(isEmailVerified := true, verificationToken := None, verificationTokenIssuedAt := None)];
    reply := Json(200, "Email verified successfully");
  }

  /** Resend: limiter, schema, lookup, `updateOne` with `$set` of the `verificationToken…` paths. */
  method ResendVerification(db: Database.AffiliateCollection, limiter: RateLimiter.Limiter, xff: Option<string>,
                            body: Option<JsonField>, isEmail: string -> bool, now: int, token: string)
    returns (reply: Reply)
    modifies db, limiter
    ensures LimitedStep(reply, db.records, limiter.entries)
            == ResendSpec(old(db.records), old(limiter.entries), xff, body, isEmail, now, token)
  {
    var limited := limiter.IsRateLimited(ResendKey(ClientIp(xff)), RateLimiter.DefaultLimit);
    if limited {
      return Json(429, ResendTooMany);
    }
    if body.None? {
      return Json(400, "Invalid JSON body");
    }
    if !body.value.Text? || !isEmail(body.value.s) {
      return Json(400, "Invalid input data");
    }
    var email := NormalizeEmail(body.value.s);
    var found := FindByEmail(db.records, email);
    if found.None? {
      return Json(404, "Affiliate account not found");
    }
    var k := found.value;
    var a := db.records[k];
    if a.isEmailVerified {
      return Json(400, "Email is already verified");
    }
    db.records := db.records[k := a.(verificationToken := Some(token), verificationTokenExpires := Some(now + VerificationTtl))];
    reply := Reply(200, "", [], None, Some(Mail(email, token)));
  }

  /** Login: limiter, schema, the gates in order, then `$inc`/`$set` and the `token` cookie. */
  method Login(db: Database.AffiliateCollection, limiter: RateLimiter.Limiter, xff: Option<string>,
               body: Option<SellerAuth.LoginInput>, isEmail: string -> bool, matches: (string, string) -> bool,
               now: int, production: bool)
    returns (reply: Reply)
    modifies db, limiter
    ensures LimitedStep(reply, db.records, limiter.entries)
            == LoginSpec(old(db.records), old(limiter.entries), xff, body, isEmail, matches, now, production)
  {
    var ip := ClientIp(xff);
    var limited := limiter.IsRateLimited(LoginKey(ip), RateLimiter.DefaultLimit);
    if limited {
      return Json(429, LoginTooMany);
    }
    if body.None? {
      return Json(400, "Invalid JSON body");
    }
    if !SellerAuth.ValidLogin(body.value, isEmail) {
      return Json(400, "Invalid input data");
    }
    var found := FindByEmail(db.records, NormalizeEmail(body.value.email.s));
    if found.None? {
      return Json(401, BadLogin);
    }
    var k := found.value;
    var a := db.records[k];
    if !a.isEmailVerified {
      return Json(403, "Email not verified. Please check your inbox.");
    }
    if a.isBanned {
      return Json(403, "Your account has been suspended. Contact support.");
    }
    if !matches(body.value.password.s, a.password) {
      db.records := db.records[k := a.(failedLoginAttempts := Lookup.Inc(a.failedLoginAttempts, 1), lastFailedLoginAt := Some(now))];
      return Json(401, BadLogin);
    }
    db.records := db.records[k := a.(lastLoginAt := Some(now), lastLoginIp := Some(ip), failedLoginAttempts := Some(0))];
    reply := Reply(200, "Login successful", [TokenCookie(a, now, production)], None, None);
  }
}
