/**
 * The seller account routes: signup, email verification, resending the
 * verification email, login, refresh and logout. Each route is a
 * specification function from the seller store and the request to the
 * reply and the new store; the routes that write records are also
 * methods that update the database step by step and are proved to agree
 * with their specification.
 */
module SellerAuth {
  import opened Wrappers
  import opened Text
  import opened Tokens
  import opened Http
  import opened SellerModel
  import Lookup
  import Database

  type Store = seq<Seller>

  /** A route's answer and the seller store it leaves. */
  datatype Step = Step(reply: Reply, store: Store)

  /** How long an email verification token stays valid. */
  const VerificationTtl: int := Day

  const AccessCookieMaxAge: int := 60 * 15
  const RefreshCookieMaxAge: int := 60 * 60 * 24
  const RefreshCookiePath: string := "/api/auth/refresh"
  const VerifySuccessPath: string := "/auth/seller/verify-success"

  // ---------------------------------------------------------------- signup

  /** The signup body; `phoneNumber` becomes the stored `phone`. */
  datatype SignupInput = SignupInput(
    businessName: JsonField,
    fullName: JsonField,
    email: JsonField,
    phoneNumber: JsonField,
    password: JsonField,
    country: JsonField)

  /** The signup schema; `isEmail` is the email-format check. */
  predicate ValidSignup(b: SignupInput, isEmail: string -> bool) {
    MinText(b.businessName, 2) && MinText(b.fullName, 2) && b.email.Text? && isEmail(b.email.s)
    && MinText(b.phoneNumber, 6) && MinText(b.password, 8) && MinText(b.country, 2)
  }

  const CountryCurrency: map<string, string> := map[
    "uganda" := "UGX", "kenya" := "KES", "tanzania" := "TZS", "rwanda" := "RWF",
    "nigeria" := "NGN", "ghana" := "GHS", "south-africa" := "ZAR"]

  const DefaultCurrency: string := "UGX"

  /** The currency of a country, looked up by its lower-cased name; unknown countries pay in UGX. */
  function CurrencyFor(country: string): (c: string)
    ensures c in CountryCurrency.Values
    ensures ToLower(country) !in CountryCurrency ==> c == DefaultCurrency
  {
    var key := ToLower(country);
    assert CountryCurrency["uganda"] == DefaultCurrency;
    if key in CountryCurrency then CountryCurrency[key] else DefaultCurrency
  }

  /** Spelling the country in capitals does not change its currency. */
  lemma CurrencyIgnoresCase(country: string)
    ensures CurrencyFor(ToUpper(country)) == CurrencyFor(country)
  {
    assert ToLower(ToUpper(country)) == ToLower(country);
  }

  /**
   * The duplicate check: a seller with the email or the phone given. The
   * route passes the normalised email and the phone as sent, and the
   * schema's `trim` setter, which also runs on query filters, trims the
   * phone; the email is already lower-cased and trimmed.
   */
  function FindDuplicate(store: Store, email: string, phone: string): (r: Option<nat>)
    ensures r.Some? ==> r.value < |store| && (store[r.value].email == email || store[r.value].phone == phone)
    ensures r.None? ==> forall k :: 0 <= k < |store| ==> store[k].email != email && store[k].phone != phone
  {
    Lookup.FirstIndex(store, (s: Seller) => s.email == email || s.phone == phone)
  }

  /**
   * `POST /api/auth/seller/signup`. `body` is None when the body is not
   * JSON; `newId`, `uuid`, `hash` and `token` are the fresh `_id`, the
   * random UUID of the public seller id, the password hash and the
   * verification token; `mailOk` tells whether the email went out.
   */
  function SignupSpec(store: Store, body: Option<SignupInput>, isEmail: string -> bool, now: int,
                      newId: string, uuid: string, hash: string, token: string, mailOk: bool): (r: Step)
    ensures r.reply.status in {201, 400, 409, 500}
  {
    if body.None? then Step(ServerError, store)
    else
      var b := body.value;
      if !ValidSignup(b, isEmail) then Step(Json(400, "Invalid input"), store)
      else
        var email := NormalizeEmail(b.email.s);
        var currency := CurrencyFor(b.country.s);
        if FindDuplicate(store, email, Trim(b.phoneNumber.s)).Some? then
          Step(Json(409, "Email or phone already exists"), store)
        else
          match Create(newId, "SEL-" + uuid, b.businessName.s, b.fullName.s, email, b.phoneNumber.s,
                       b.country.s, currency, hash, token, now + VerificationTtl)
          case None => Step(ServerError, store)
          case Some(s) =>
            match Insert(store, s)
            case None => Step(ServerError, store)
            case Some(inserted) =>
              if mailOk then
                Step(Reply(201, "Signup successful. Check your email to verify.", [], None, Some(Mail(s.email, token))), inserted)
              else Step(ServerError, inserted)
  }

  /**
   * What signup does: 400 exactly for a body the schema refuses, 409
   * exactly for a duplicate, and otherwise at most one new pending,
   * unverified seller carrying the token, appended to the store; 201 only
   * when the email also went out. The unique indexes survive.
   */
  lemma SignupContract(store: Store, body: Option<SignupInput>, isEmail: string -> bool, now: int,
                       newId: string, uuid: string, hash: string, token: string, mailOk: bool)
    ensures var r := SignupSpec(store, body, isEmail, now, newId, uuid, hash, token, mailOk);
            && (body.None? ==> r == Step(ServerError, store))
            && (r.reply.status == 400 <==> body.Some? && !ValidSignup(body.value, isEmail))
            && (r.reply.status == 409 <==>
                  body.Some? && ValidSignup(body.value, isEmail)
                  && FindDuplicate(store, NormalizeEmail(body.value.email.s), Trim(body.value.phoneNumber.s)).Some?)
            && (r.store == store || (|r.store| == |store| + 1 && r.store[..|store|] == store))
            && (r.reply.status == 201 <==> r.store != store && mailOk)
            && (r.reply.status == 201 ==> r.reply.mail == Some(Mail(r.store[|store|].email, token)))
            && (UniqueKeys(store) ==> UniqueKeys(r.store))
    ensures var r := SignupSpec(store, body, isEmail, now, newId, uuid, hash, token, mailOk);
            r.store != store ==>
              body.Some? && ValidSignup(body.value, isEmail) && r.reply.status in {201, 500}
              && var b := body.value;
                 var s := r.store[|store|];
                 s.id == newId && s.sellerId == "SEL-" + uuid && s.password == hash
                 && s.email == NormalizeEmail(b.email.s) && s.currency == CurrencyFor(b.country.s)
                 && s.status == Pending && !s.isEmailVerified && s.failedLoginAttempts == 0
                 && s.emailVerificationToken == Some(token)
                 && s.emailVerificationExpires == Some(now + VerificationTtl)
                 && s.tokenVersion.None? && s.refreshTokenVersion.None?
  {
    if body.Some? && ValidSignup(body.value, isEmail) {
      var b := body.value;
      var email := NormalizeEmail(b.email.s);
      NormalizeEmailIdempotent(b.email.s);
      var created := Create(newId, "SEL-" + uuid, b.businessName.s, b.fullName.s, email, b.phoneNumber.s,
                            b.country.s, CurrencyFor(b.country.s), hash, token, now + VerificationTtl);
      if FindDuplicate(store, email, Trim(b.phoneNumber.s)).None? && created.Some? && Insert(store, created.value).Some? {
        assert Insert(store, created.value).value[..|store|] == store;
      }
    }
  }

  // ---------------------------------------------------------------- verify

  /** A seller holding this token, not yet expired. */
  predicate HoldsLiveToken(s: Seller, token: string, now: int) {
    s.emailVerificationToken == Some(token)
    && s.emailVerificationExpires.Some? && s.emailVerificationExpires.value > now
  }

  function FindByLiveToken(store: Store, token: string, now: int): (r: Option<nat>)
    ensures r.Some? ==> r.value < |store| && HoldsLiveToken(store[r.value], token, now)
    ensures r.None? ==> forall k :: 0 <= k < |store| ==> !HoldsLiveToken(store[k], token, now)
  {
    Lookup.FirstIndex(store, (s: Seller) => HoldsLiveToken(s, token, now))
  }

  /** The record after a successful verification. */
  function Verified(s: Seller): Seller {
    s.(isEmailVerified := true, emailVerificationToken := None, emailVerificationExpires := None,
       status := Active)
  }

  /**
   * `GET /api/auth/seller/verify?token=…`. `token` is None without the
   * query parameter; `baseOrigin` is the configured public base URL, if any.
   */
  function VerifySpec(store: Store, token: Option<string>, now: int, baseOrigin: Option<string>): (r: Step)
    ensures token.None? || token.value == "" ==> r.reply.status == 400 && r.store == store
    ensures r.reply.status == 400 <==>
              token.None? || token.value == "" || FindByLiveToken(store, token.value, now).None?
    ensures r.reply.status == 400 ==> r.store == store
    ensures r.reply.status != 400 ==>
              var k := FindByLiveToken(store, token.value, now).value;
              r.store == store[k := Verified(store[k])]
              && r.store[k].isEmailVerified && r.store[k].status == Active
              && r.store[k].emailVerificationToken.None? && r.store[k].emailVerificationExpires.None?
    ensures r.reply.status in {307, 400, 500}
    ensures r.reply.status == 500 <==> r.reply.status != 400 && (baseOrigin.None? || baseOrigin.value == "")
    ensures r.reply.status == 307 ==> r.reply.location == Some(baseOrigin.value + VerifySuccessPath)
  {
    if token.None? || token.value == "" then Step(Json(400, "Verification token missing"), store)
    else
      match FindByLiveToken(store, token.value, now)
      case None => Step(Json(400, "Invalid or expired token"), store)
      case Some(k) =>
        var saved := store[k := Verified(store[k])];
        if baseOrigin.None? || baseOrigin.value == "" then
          Step(Reply(500, "Server configuration error", [], None, None), saved)
        else Step(Reply(RedirectStatus, "", [], Some(baseOrigin.value + VerifySuccessPath), None), saved)
  }

  // ---------------------------------------------------------------- resend

  /** The unverified seller a resend reissues the token of: the body's email names one. */
  function ResendTarget(store: Store, body: Option<JsonField>): (r: Option<nat>)
    ensures r.Some? ==> r.value < |store| && !store[r.value].isEmailVerified
  {
    if body.None? || !body.value.Text? || body.value.s == "" then None
    else
      match FindByEmail(store, NormalizeEmail(body.value.s))
      case None => None
      case Some(k) => if store[k].isEmailVerified then None else Some(k)
  }

  /** The record after a resend: a new token, valid for a day from now. */
  function Reissued(s: Seller, now: int, token: string): Seller {
    s.(emailVerificationToken := Some(token), emailVerificationExpires := Some(now + VerificationTtl))
  }

  /**
   * `POST /api/auth/seller/resend-verification`. `body` is the `email`
   * field of the parsed body, or None when the body is not JSON or is
   * `null` (destructuring it throws).
   */
  function ResendSpec(store: Store, body: Option<JsonField>, now: int, token: string, mailOk: bool): (r: Step)
    ensures body.None? ==> r == Step(ServerError, store)
    ensures body.Some? && Falsy(body.value) ==> r == Step(Json(400, "Email is required"), store)
    ensures r.reply.status == 404 <==>
              body.Some? && body.value.Text? && body.value.s != ""
              && FindByEmail(store, NormalizeEmail(body.value.s)).None?
    ensures r.reply.status in {200, 400, 404, 500}
    ensures ResendTarget(store, body).None? ==> r.store == store && r.reply.status != 200
    ensures ResendTarget(store, body).Some? ==>
              var k := ResendTarget(store, body).value;
              r.store == store[k := Reissued(store[k], now, token)]
              && (r.reply.status == 200 <==> mailOk)
    ensures r.reply.status == 200 ==> r.reply.mail == Some(Mail(NormalizeEmail(body.value.s), token))
  {
    if body.None? then Step(ServerError, store)
    else if Falsy(body.value) then Step(Json(400, "Email is required"), store)
    else if body.value.NonText? then Step(ServerError, store)
    else
      var email := NormalizeEmail(body.value.s);
      match FindByEmail(store, email)
      case None => Step(Json(404, "Seller not found"), store)
      case Some(k) =>
        if store[k].isEmailVerified then Step(Json(400, "Email is already verified"), store)
        else if mailOk then
          Step(Reply(200, "Verification email sent successfully", [], None, Some(Mail(email, token))),
               store[k := Reissued(store[k], now, token)])
        else Step(ServerError, store[k := Reissued(store[k], now, token)])
  }

  // ---------------------------------------------------------------- login

  datatype LoginInput = LoginInput(email: JsonField, password: JsonField)

  predicate ValidLogin(b: LoginInput, isEmail: string -> bool) {
    b.email.Text? && isEmail(b.email.s) && MinText(b.password, 1)
  }

  /** The cookies a successful login sets: a 15-minute access cookie and a 1-day refresh cookie. */
  function LoginCookies(s: Seller, now: int, production: bool): (c: seq<SetCookie>)
    ensures |c| == 2 && c[0].name == "accessToken" && c[1].name == "refreshToken"
    ensures c[0].path == "/" && c[0].maxAge == 900 && c[1].path == RefreshCookiePath && c[1].maxAge == 86400
    ensures forall i :: 0 <= i < 2 ==> c[i].httpOnly && c[i].sameSite == Strict && c[i].secure == production
    ensures c[0].value == Issue(s.id, "seller", None, now, AccessTokenTtl)
    ensures c[1].value == Issue(s.id, "seller", Some(s.tokenVersion.GetOr(0)), now, RefreshTokenTtl)
  {
    [SetCookie("accessToken", Issue(s.id, "seller", None, now, AccessTokenTtl), "/", AccessCookieMaxAge,
               true, Strict, production),
     SetCookie("refreshToken", Issue(s.id, "seller", Some(s.tokenVersion.GetOr(0)), now, RefreshTokenTtl),
               RefreshCookiePath, RefreshCookieMaxAge, true, Strict, production)]
  }

  const InvalidCredentials: string := "Invalid credentials"

  /** The seller a login reaches the password check for: found by email, not banned, verified. */
  function LoginTarget(store: Store, body: Option<LoginInput>, isEmail: string -> bool): (r: Option<nat>)
    ensures r.Some? ==> r.value < |store| && store[r.value].status != Banned && store[r.value].isEmailVerified
  {
    if body.None? || !ValidLogin(body.value, isEmail) then None
    else
      match FindByEmail(store, NormalizeEmail(body.value.email.s))
      case None => None
      case Some(k) => if store[k].status == Banned || !store[k].isEmailVerified then None else Some(k)
  }

  /**
   * `POST /api/auth/seller/login`. `body` is None when the body is not
   * JSON or is falsy; `matches(plain, hash)` is the password check.
   */
  function LoginSpec(store: Store, body: Option<LoginInput>, isEmail: string -> bool,
                     matches: (string, string) -> bool, now: int, production: bool): (r: Step)
    ensures r.reply.status in {200, 400, 401, 403}
    ensures r.reply.status == 401 ==> r.reply.message == InvalidCredentials
    ensures r.reply.status != 200 ==> r.reply.cookies == []
  {
    if body.None? then Step(Json(400, "Invalid JSON"), store)
    else if !ValidLogin(body.value, isEmail) then Step(Json(400, "Invalid input"), store)
    else
      match FindByEmail(store, NormalizeEmail(body.value.email.s))
      case None => Step(Json(401, InvalidCredentials), store)
      case Some(k) =>
        var s := store[k];
        if s.status == Banned then Step(Json(401, InvalidCredentials), store)
        else if !s.isEmailVerified then Step(Json(403, "Email not verified"), store)
        else if !matches(body.value.password.s, s.password) then
          Step(Json(401, InvalidCredentials), store[k := s.(failedLoginAttempts := s.failedLoginAttempts + 1)])
        else
          Step(Reply(200, "", LoginCookies(s, now, production), None, None),
               store[k := s.(failedLoginAttempts := 0, lastLoginAt := Some(now))])
  }

  /**
   * The gates of login: a refused body, an unknown email, a banned or an
   * unverified seller leave the store alone and get no cookies; 403
   * exactly for a seller that is found, not banned, and unverified.
   */
  lemma LoginGates(store: Store, body: Option<LoginInput>, isEmail: string -> bool,
                   matches: (string, string) -> bool, now: int, production: bool)
    ensures var r := LoginSpec(store, body, isEmail, matches, now, production);
            && (body.None? || !ValidLogin(body.value, isEmail) ==> r.reply.status == 400)
            && (LoginTarget(store, body, isEmail).None? ==> r.store == store && r.reply.status != 200)
            && (r.reply.status == 403 <==>
                  body.Some? && ValidLogin(body.value, isEmail)
                  && var found := FindByEmail(store, NormalizeEmail(body.value.email.s));
                     found.Some? && store[found.value].status != Banned && !store[found.value].isEmailVerified)
  {
  }

  /**
   * Past the gates, a wrong password adds one failed attempt; a right
   * one resets the counter, stamps the login time and sets the two cookies.
   */
  lemma LoginOutcome(store: Store, body: Option<LoginInput>, isEmail: string -> bool,
                     matches: (string, string) -> bool, now: int, production: bool)
    ensures var r := LoginSpec(store, body, isEmail, matches, now, production);
            LoginTarget(store, body, isEmail).Some? ==>
              var k := LoginTarget(store, body, isEmail).value;
              if matches(body.value.password.s, store[k].password) then
                r.reply.status == 200
                && r.store == store[k := store[k].(failedLoginAttempts := 0, lastLoginAt := Some(now))]
                && r.reply.cookies == LoginCookies(store[k], now, production)
              else
                r.reply.status == 401
                && r.store == store[k := store[k].(failedLoginAttempts := store[k].failedLoginAttempts + 1)]
  {
  }

  /** An unknown email and a banned seller get the very answer a wrong password gets. */
  lemma LoginHidesWhy(store: Store, body: Option<LoginInput>, isEmail: string -> bool,
                      matches: (string, string) -> bool, now: int, production: bool)
    requires body.Some? && ValidLogin(body.value, isEmail)
    requires var found := FindByEmail(store, NormalizeEmail(body.value.email.s));
             found.None? || store[found.value].status == Banned
    ensures LoginSpec(store, body, isEmail, matches, now, production) == Step(Json(401, InvalidCredentials), store)
  {
  }

  // ---------------------------------------------------------------- refresh

  /** The new access cookie a refresh sets. */
  function RefreshedAccessCookie(s: Seller, now: int, production: bool): SetCookie {
    SetCookie("accessToken", Issue(s.id, "seller", None, now, AccessTokenTtl), "/", AccessCookieMaxAge,
              true, Strict, production)
  }

  /** The seller a verified token's `sub` names, if any. */
  function SubjectOf(store: Store, c: Claims): Option<nat> {
    if c.sub.Some? then FindById(store, c.sub.value) else None
  }

  /**
   * `POST /api/auth/seller/refresh`, as written: the token's version is
   * compared with the record's raw `tokenVersion`, with no default.
   * Nothing is written to the store.
   */
  function RefreshSpec(store: Store, jar: CookieJar, now: int, production: bool): (r: Reply)
    ensures CookieValue(jar, "refreshToken") == Blank ==> r.status == 401
    ensures Verify(CookieValue(jar, "refreshToken"), now).None? ==> r.status == 401
    ensures r.status == 404 <==>
              Verify(CookieValue(jar, "refreshToken"), now).Some?
              && SubjectOf(store, Verify(CookieValue(jar, "refreshToken"), now).value).None?
    ensures r.status == 200 <==>
              var c := Verify(CookieValue(jar, "refreshToken"), now);
              c.Some? && SubjectOf(store, c.value).Some?
              && c.value.tokenVersion == store[SubjectOf(store, c.value).value].tokenVersion
    ensures r.status in {200, 401, 404}
    ensures r.status == 200 ==>
              r.cookies == [RefreshedAccessCookie(store[SubjectOf(store, Verify(CookieValue(jar, "refreshToken"), now).value).value], now, production)]
    ensures r.status != 200 ==> r.cookies == []
  {
    var t := CookieValue(jar, "refreshToken");
    if t == Blank then Json(401, "Unauthorized")
    else
      match Verify(t, now)
      case None => Json(401, "Invalid refresh token")
      case Some(c) =>
        match SubjectOf(store, c)
        case None => Json(404, "Seller not found")
        case Some(k) =>
          if c.tokenVersion != store[k].tokenVersion then Json(401, "Invalid refresh token")
          else Reply(200, "", [RefreshedAccessCookie(store[k], now, production)], None, None)
  }

  /**
   * The refresh route as evidently intended: the record's version read
   * with the same `|| 0` default login stamps into the token.
   */
  function RefreshSpecCorrected(store: Store, jar: CookieJar, now: int, production: bool): (r: Reply)
    ensures r.status == 200 <==>
              var c := Verify(CookieValue(jar, "refreshToken"), now);
              c.Some? && SubjectOf(store, c.value).Some?
              && c.value.tokenVersion == Some(store[SubjectOf(store, c.value).value].tokenVersion.GetOr(0))
    ensures r.status in {200, 401, 404}
  {
    var t := CookieValue(jar, "refreshToken");
    if t == Blank then Json(401, "Unauthorized")
    else
      match Verify(t, now)
      case None => Json(401, "Invalid refresh token")
      case Some(c) =>
        match SubjectOf(store, c)
        case None => Json(404, "Seller not found")
        case Some(k) =>
          if c.tokenVersion != Some(store[k].tokenVersion.GetOr(0)) then Json(401, "Invalid refresh token")
          else Reply(200, "", [RefreshedAccessCookie(store[k], now, production)], None, None)
  }

  // ---------------------------------------------------------------- logout

  /** The two overwrites that make the browser drop the session cookies. */
  function LogoutCookies(): seq<SetCookie> {
    [SetCookie("accessToken", Blank, "/", 0, false, Unspecified, false),
     SetCookie("refreshToken", Blank, RefreshCookiePath, 0, false, Unspecified, false)]
  }

  /** The seller a logout bumps: named by a verified access token's non-empty `sub`. */
  function LogoutTarget(store: Store, jar: CookieJar, now: int): Option<nat> {
    var t := CookieValue(jar, "accessToken");
    var c := Verify(t, now);
    if c.Some? && c.value.sub.Some? && c.value.sub.value != "" then FindById(store, c.value.sub.value)
    else None
  }

  /** `POST /api/auth/seller/logout`; `origin` is the request's origin. */
  function LogoutSpec(store: Store, jar: CookieJar, now: int, origin: string): (r: Step)
    ensures r.reply.status == RedirectStatus && r.reply.location == Some(origin + "/")
    ensures |r.reply.cookies| == 2
    ensures Clears(r.reply.cookies[0], "accessToken", "/") && Clears(r.reply.cookies[1], "refreshToken", RefreshCookiePath)
    ensures LogoutTarget(store, jar, now).None? ==> r.store == store
    ensures LogoutTarget(store, jar, now).Some? ==>
              var k := LogoutTarget(store, jar, now).value;
              r.store == store[k := store[k].(tokenVersion := Some(store[k].tokenVersion.GetOr(0) + 1))]
  {
    var reply := Reply(RedirectStatus, "", LogoutCookies(), Some(origin + "/"), None);
    match LogoutTarget(store, jar, now)
    case None => Step(reply, store)
    case Some(k) => Step(reply, store[k := store[k].(tokenVersion := Lookup.Inc(store[k].tokenVersion, 1))])
  }

  // ---------------------------------------------------------------- the routes as they run

  /** Signup: the duplicate check, `Seller.create`, then the awaited email. */
  method Signup(db: Database.SellerCollection, body: Option<SignupInput>, isEmail: string -> bool, now: int,
                newId: string, uuid: string, hash: string, token: string, mailOk: bool) returns (reply: Reply)
    modifies db
    ensures Step(reply, db.records) == SignupSpec(old(db.records), body, isEmail, now, newId, uuid, hash, token, mailOk)
  {
    if body.None? {
      return ServerError;
    }
    var b := body.value;
    if !ValidSignup(b, isEmail) {
      return Json(400, "Invalid input");
    }
    var email := NormalizeEmail(b.email.s);
    var currency := CurrencyFor(b.country.s);
    if FindDuplicate(db.records, email, Trim(b.phoneNumber.s)).Some? {
      return Json(409, "Email or phone already exists");
    }
    var created := Create(newId, "SEL-" + uuid, b.businessName.s, b.fullName.s, email, b.phoneNumber.s,
                          b.country.s, currency, hash, token, now + VerificationTtl);
    if created.None? {
      return ServerError;
    }
    var inserted := Insert(db.records, created.value);
    if inserted.None? {
      return ServerError;
    }
    db.records := inserted.value;
    if !mailOk {
      return ServerError;
    }
    reply := Reply(201, "Signup successful. Check your email to verify.", [], None, Some(Mail(created.value.email, token)));
  }

  /** Verify: load the holder of the live token, set its fields one by one, save. */
  method VerifyEmail(db: Database.SellerCollection, token: Option<string>, now: int, baseOrigin: Option<string>) returns (reply: Reply)
    modifies db
    ensures Step(reply, db.records) == VerifySpec(old(db.records), token, now, baseOrigin)
  {
    if token.None? || token.value == "" {
      return Json(400, "Verification token missing");
    }
    var found := FindByLiveToken(db.records, token.value, now);
    if found.None? {
      return Json(400, "Invalid or expired token");
    }
    var k := found.value;
    var seller := db.records[k];
    seller := seller.(isEmailVerified := true);
    seller := seller.(emailVerificationToken := None);
    seller := seller.(emailVerificationExpires := None);
    seller := seller.(status := Active);
    db.records := db.records[k := seller];
    if baseOrigin.None? || baseOrigin.value == "" {
      return Reply(500, "Server configuration error", [], None, None);
    }
    reply := Reply(RedirectStatus, "", [], Some(baseOrigin.value + VerifySuccessPath), None);
  }

  /** Resend: load by email, overwrite the token and its expiry, save, send. */
  method ResendVerification(db: Database.SellerCollection, body: Option<JsonField>, now: int, token: string, mailOk: bool)
    returns (reply: Reply)
    modifies db
    ensures Step(reply, db.records) == ResendSpec(old(db.records), body, now, token, mailOk)
  {
    if body.None? {
      return ServerError;
    }
    if Falsy(body.value) {
      return Json(400, "Email is required");
    }
    if body.value.NonText? {
      return ServerError;
    }
    var email := NormalizeEmail(body.value.s);
    var found := FindByEmail(db.records, email);
    if found.None? {
      return Json(404, "Seller not found");
    }
    var k := found.value;
    var seller := db.records[k];
    if seller.isEmailVerified {
      return Json(400, "Email is already verified");
    }
    seller := seller.(emailVerificationToken := Some(token));
    seller := seller.(emailVerificationExpires := Some(now + VerificationTtl));
    db.records := db.records[k := seller];
    if !mailOk {
      return ServerError;
    }
    reply := Reply(200, "Verification email sent successfully", [], None, Some(Mail(email, token)));
  }

  /** Login: the gates in order, then the counter update and the two cookies. */
  method Login(db: Database.SellerCollection, body: Option<LoginInput>, isEmail: string -> bool,
               matches: (string, string) -> bool, now: int, production: bool) returns (reply: Reply)
    modifies db
    ensures Step(reply, db.records) == LoginSpec(old(db.records), body, isEmail, matches, now, production)
  {
    if body.None? {
      return Json(400, "Invalid JSON");
    }
    if !ValidLogin(body.value, isEmail) {
      return Json(400, "Invalid input");
    }
    var found := FindByEmail(db.records, NormalizeEmail(body.value.email.s));
    if found.None? || db.records[found.value].status == Banned {
      return Json(401, InvalidCredentials);
    }
    var k := found.value;
    var seller := db.records[k];
    if !seller.isEmailVerified {
      return Json(403, "Email not verified");
    }
    if !matches(body.value.password.s, seller.password) {
      seller := seller.(failedLoginAttempts := seller.failedLoginAttempts + 1);
      db.records := db.records[k := seller];
      return Json(401, InvalidCredentials);
    }
    var cookies := LoginCookies(seller, now, production);
    seller := seller.(failedLoginAttempts := 0, lastLoginAt := Some(now));
    db.records := db.records[k := seller];
    reply := Reply(200, "", cookies, None, None);
  }

  /** Logout: `$inc` of the version when the access token names a seller; the cookies always go. */
  method Logout(db: Database.SellerCollection, jar: CookieJar, now: int, origin: string) returns (reply: Reply)
    modifies db
    ensures Step(reply, db.records) == LogoutSpec(old(db.records), jar, now, origin)
  {
    var target := LogoutTarget(db.records, jar, now);
    if target.Some? {
      var k := target.value;
      db.records := db.records[k := db.records[k].(tokenVersion := Lookup.Inc(db.records[k].tokenVersion, 1))];
    }
    reply := Reply(RedirectStatus, "", LogoutCookies(), Some(origin + "/"), None);
  }
}
