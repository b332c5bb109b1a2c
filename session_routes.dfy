/**
 * The routes that read a session rather than open one: the shared refresh
 * and logout routes, the session probe, the guards of the seller and
 * affiliate page trees, and the two routes that return the signed-in
 * seller's record. All of them trust one signing secret.
 */
module SessionRoutes {
  import opened Wrappers
  import opened Text
  import opened Tokens
  import opened Http
  import SellerModel
  import AffiliateModel
  import Lookup
  import Database
  import SellerAuth
  import AffiliateAuth

  type Sellers = seq<SellerModel.Seller>
  type Affiliates = seq<AffiliateModel.Affiliate>

  // ---------------------------------------------------------------- POST /api/refresh

  /** Ten minutes, in seconds: the access cookie the shared refresh route sets. */
  const SharedAccessMaxAge: int := 60 * 10

  /** The empty-bodied 401 every failure of the shared refresh route collapses into. */
  const Unauthorized: Reply := Reply(401, "", [], None, None)

  /** `signJwt({ sub, role })` with the token library's ten-minute default; the role is copied from the old token. */
  function ReissueAccess(id: string, role: Option<string>, now: int): (t: Token)
    ensures t.Jwt? && t.claims.sub == Some(id) && t.claims.role == role && t.claims.tokenVersion.None?
    ensures forall at :: Verify(t, at).Some? <==> at < now + AccessTokenTtl
  {
    Jwt(Claims(Some(id), role, None, None, now + AccessTokenTtl), true)
  }

  /**
   * The account a refresh token names: the role "seller" selects the
   * seller store and any other role the affiliate store; the answer is
   * the account's `_id` and its raw `refreshTokenVersion`.
   */
  function Account(sellers: Sellers, affiliates: Affiliates, c: Claims): (r: Option<(string, Option<int>)>)
    ensures r.Some? ==> c.sub == Some(r.value.0)
    ensures c.sub.Some? && c.role == Some("seller") ==>
              (r.Some? <==> SellerModel.FindById(sellers, c.sub.value).Some?)
    ensures c.sub.Some? && c.role != Some("seller") ==>
              (r.Some? <==> AffiliateModel.FindById(affiliates, c.sub.value).Some?)
  {
    if c.sub.None? then None
    else if c.role == Some("seller") then
      match SellerModel.FindById(sellers, c.sub.value)
      case None => None
      case Some(k) => Some((sellers[k].id, sellers[k].refreshTokenVersion))
    else
      match AffiliateModel.FindById(affiliates, c.sub.value)
      case None => None
      case Some(k) => Some((affiliates[k].id, affiliates[k].refreshTokenVersion))
  }

  /** The new access cookie: path "/", ten minutes, SameSite lax. */
  function SharedAccessCookie(id: string, role: Option<string>, now: int, production: bool): SetCookie {
    SetCookie("accessToken", ReissueAccess(id, role, now), "/", SharedAccessMaxAge, true, Lax, production)
  }

  /**
   * `POST /api/refresh`: a genuine, unexpired refresh token whose version
   * equals the account's `refreshTokenVersion || 0` earns a new access
   * cookie; every failure is the same empty 401. No record is written.
   */
  function SharedRefreshSpec(sellers: Sellers, affiliates: Affiliates, jar: CookieJar, now: int, production: bool): (r: Reply)
    ensures r.status in {200, 401}
    ensures r.status != 200 ==> r == Unauthorized
    ensures r.status == 200 <==>
              var c := Verify(CookieValue(jar, "refreshToken"), now);
              c.Some? && Account(sellers, affiliates, c.value).Some?
              && c.value.tokenVersion == Some(Account(sellers, affiliates, c.value).value.1.GetOr(0))
    ensures r.status == 200 ==>
              var c := Verify(CookieValue(jar, "refreshToken"), now).value;
              r.cookies == [SharedAccessCookie(Account(sellers, affiliates, c).value.0, c.role, now, production)]
  {
    var t := CookieValue(jar, "refreshToken");
    if t == Blank then Unauthorized
    else
      match Verify(t, now)
      case None => Unauthorized
      case Some(c) =>
        match Account(sellers, affiliates, c)
        case None => Unauthorized
        case Some(acct) =>
          if c.tokenVersion != Some(acct.1.GetOr(0)) then Unauthorized
          else Reply(200, "", [SharedAccessCookie(acct.0, c.role, now, production)], None, None)
  }

  // ---------------------------------------------------------------- POST /api/auth/logout

  /** The seller the shared logout bumps: named by the `sellerId` claim of the refresh token, read without checking it. */
  function SharedLogoutTarget(sellers: Sellers, jar: CookieJar): (r: Option<nat>)
    ensures r.Some? ==> r.value < |sellers|
    ensures r.Some? ==> var c := DecodeUnverified(CookieValue(jar, "refreshToken"));
                        c.Some? && c.value.sellerId == Some(sellers[r.value].id)
  {
    match DecodeUnverified(CookieValue(jar, "refreshToken"))
    case None => None
    case Some(c) => if c.sellerId.Some? then SellerModel.FindById(sellers, c.sellerId.value) else None
  }

  /** Both cookies overwritten at path "/" with `maxAge` 0, HttpOnly, SameSite lax. */
  function SharedLogoutCookies(production: bool): (c: seq<SetCookie>)
    ensures |c| == 2 && Clears(c[0], "accessToken", "/") && Clears(c[1], "refreshToken", "/")
    ensures forall i :: 0 <= i < 2 ==> c[i].httpOnly && c[i].sameSite == Lax && c[i].secure == production
  {
    [SetCookie("accessToken", Blank, "/", 0, true, Lax, production),
     SetCookie("refreshToken", Blank, "/", 0, true, Lax, production)]
  }

  /** A cookie whose middle segment is not JSON: the handler throws before it answers. */
  const Crashed: Reply := Reply(500, "", [], None, None)

  /**
   * `POST /api/auth/logout`: no cookie, no write; a token-shaped cookie
   * raises the `refreshTokenVersion` of the seller its `sellerId` names;
   * anything else makes the decode throw, and nothing is cleared.
   */
  function SharedLogoutSpec(sellers: Sellers, jar: CookieJar, production: bool): (r: SellerAuth.Step)
    ensures CookieValue(jar, "refreshToken") == Garbage <==> r.reply == Crashed
    ensures CookieValue(jar, "refreshToken") != Garbage ==>
              r.reply.status == 200 && r.reply.cookies == SharedLogoutCookies(production)
    ensures SharedLogoutTarget(sellers, jar).None? ==> r.store == sellers
    ensures SharedLogoutTarget(sellers, jar).Some? ==>
              var k := SharedLogoutTarget(sellers, jar).value;
              r.store == sellers[k := sellers[k].(refreshTokenVersion := Some(sellers[k].refreshTokenVersion.GetOr(0) + 1))]
  {
    var t := CookieValue(jar, "refreshToken");
    if t == Garbage then SellerAuth.Step(Crashed, sellers)
    else
      var ok := Reply(200, "", SharedLogoutCookies(production), None, None);
      match SharedLogoutTarget(sellers, jar)
      case None => SellerAuth.Step(ok, sellers)
      case Some(k) =>
        SellerAuth.Step(ok, sellers[k := sellers[k].(refreshTokenVersion := Lookup.Inc(sellers[k].refreshTokenVersion, 1))])
  }

  /** The shared logout as it runs: decode, `findByIdAndUpdate` with `$inc`, then the two overwrites. */
  method SharedLogout(db: Database.SellerCollection, jar: CookieJar, production: bool) returns (reply: Reply)
    modifies db
    ensures SellerAuth.Step(reply, db.records) == SharedLogoutSpec(old(db.records), jar, production)
  {
    var t := CookieValue(jar, "refreshToken");
    if t == Garbage {
      return Crashed;
    }
    var target := SharedLogoutTarget(db.records, jar);
    if target.Some? {
      var k := target.value;
      db.records := db.records[k := db.records[k].(refreshTokenVersion := Lookup.Inc(db.records[k].refreshTokenVersion, 1))];
    }
    reply := Reply(200, "", SharedLogoutCookies(production), None, None);
  }

  /** No token the routes mint carries a `sellerId`, so the shared logout never writes for a real session. */
  lemma SharedLogoutIgnoresMintedTokens(sellers: Sellers, s: SellerModel.Seller, now: int, production: bool,
                                        jar: CookieJar)
    requires jar == map["refreshToken" := SellerAuth.LoginCookies(s, now, production)[1].value]
    ensures SharedLogoutSpec(sellers, jar, production).store == sellers
  {
  }

  /** A forged token-shaped cookie that names a seller raises that seller's version all the same. */
  lemma ForgedCookieBumps(sellers: Sellers, k: nat, c: Claims, production: bool)
    requires k < |sellers| && c.sellerId == Some(sellers[k].id)
    requires forall j :: 0 <= j < k ==> sellers[j].id != sellers[k].id
    ensures var r := SharedLogoutSpec(sellers, map["refreshToken" := Jwt(c, false)], production);
            r.reply.status == 200
            && r.store[k].refreshTokenVersion == Some(sellers[k].refreshTokenVersion.GetOr(0) + 1)
  {
    Lookup.FirstIndexIs(sellers, (s: SellerModel.Seller) => s.id == sellers[k].id, k);
  }

  /** Two seller stores that agree on every `_id` and `refreshTokenVersion` get the same shared refresh answers. */
  lemma SharedRefreshReads(a: Sellers, b: Sellers, affiliates: Affiliates, jar: CookieJar, now: int, production: bool)
    requires |a| == |b|
    requires forall k :: 0 <= k < |a| ==> a[k].id == b[k].id && a[k].refreshTokenVersion == b[k].refreshTokenVersion
    ensures SharedRefreshSpec(a, affiliates, jar, now, production) == SharedRefreshSpec(b, affiliates, jar, now, production)
  {
    SameIdsSameLookups(a, b);
  }

  /** Two seller stores that agree on every `_id` and `tokenVersion` get the same seller refresh answers. */
  lemma SellerRefreshReads(a: Sellers, b: Sellers, jar: CookieJar, now: int, production: bool)
    requires |a| == |b|
    requires forall k :: 0 <= k < |a| ==> a[k].id == b[k].id && a[k].tokenVersion == b[k].tokenVersion
    ensures SellerAuth.RefreshSpec(a, jar, now, production) == SellerAuth.RefreshSpec(b, jar, now, production)
  {
    SameIdsSameLookups(a, b);
  }

  /**
   * The two logout routes bump different fields, and each refresh route
   * reads only the field of its own logout: a seller logout leaves the
   * shared refresh route's answers as they were.
   */
  lemma SellerLogoutMissesSharedRefresh(sellers: Sellers, affiliates: Affiliates, jar: CookieJar, logoutJar: CookieJar,
                                        now: int, origin: string, production: bool)
    ensures var after := SellerAuth.LogoutSpec(sellers, logoutJar, now, origin).store;
            SharedRefreshSpec(after, affiliates, jar, now, production) == SharedRefreshSpec(sellers, affiliates, jar, now, production)
  {
    var after := SellerAuth.LogoutSpec(sellers, logoutJar, now, origin).store;
    SharedRefreshReads(after, sellers, affiliates, jar, now, production);
  }

  /** And the shared logout leaves the seller refresh route's answers as they were. */
  lemma SharedLogoutMissesSellerRefresh(sellers: Sellers, jar: CookieJar, logoutJar: CookieJar, now: int, production: bool)
    ensures var after := SharedLogoutSpec(sellers, logoutJar, production).store;
            SellerAuth.RefreshSpec(after, jar, now, production) == SellerAuth.RefreshSpec(sellers, jar, now, production)
  {
    var after := SharedLogoutSpec(sellers, logoutJar, production).store;
    SellerRefreshReads(after, sellers, jar, now, production);
  }

  /** Two stores with the same ids position by position answer every `findById` alike. */
  lemma SameIdsSameLookups(a: Sellers, b: Sellers)
    requires |a| == |b| && forall k :: 0 <= k < |a| ==> a[k].id == b[k].id
    ensures forall id :: SellerModel.FindById(a, id) == SellerModel.FindById(b, id)
  {
    forall id ensures SellerModel.FindById(a, id) == SellerModel.FindById(b, id) {
      match SellerModel.FindById(a, id)
      case None =>
      case Some(k) =>
        Lookup.FirstIndexIs(b, (s: SellerModel.Seller) => s.id == id, k);
    }
  }

  // ---------------------------------------------------------------- GET /api/auth/session

  /** The probe's answer: the status and the `valid` member. */
  datatype Probe = Probe(status: int, valid: bool)

  /** `GET /api/auth/session`: only the `token` cookie is read. */
  function SessionSpec(jar: CookieJar, now: int): (r: Probe)
    ensures r.valid <==> Verify(CookieValue(jar, "token"), now).Some?
    ensures r.status == if r.valid then 200 else 401
  {
    var t := CookieValue(jar, "token");
    if t == Blank then Probe(401, false)
    else if Verify(t, now).Some? then Probe(200, true)
    else Probe(401, false)
  }

  /** A seller's login cookies do not satisfy the probe: it reads a cookie the seller login never sets. */
  lemma SessionIgnoresSellerLogin(s: SellerModel.Seller, now: int, production: bool, later: int)
    ensures var c := SellerAuth.LoginCookies(s, now, production);
            SessionSpec(map[c[0].name := c[0].value, c[1].name := c[1].value], later) == Probe(401, false)
  {
    var c := SellerAuth.LoginCookies(s, now, production);
    assert "token" != c[0].name && "token" != c[1].name;
  }

  /** An affiliate's login cookie satisfies the probe for its seven days. */
  lemma SessionAfterAffiliateLogin(a: AffiliateModel.Affiliate, now: int, production: bool, later: int)
    requires later < now + 7 * Day
    ensures var c := AffiliateAuth.TokenCookie(a, now, production);
            SessionSpec(map[c.name := c.value], later) == Probe(200, true)
  {
  }

  // ---------------------------------------------------------------- the page guards

  /** What a layout does: render its pages, redirect, or let a verification error escape. */
  datatype Guard = Render | RedirectTo(path: string) | Throws

  const SellerLoginPath: string := "/auth/seller/login"
  const AffiliateLoginPath: string := "/auth/affiliate/login"
  const UnauthorizedPath: string := "/unauthorized"

  /** The seller layout: `accessToken` present, verifiable (else the error escapes) and for the role "seller". */
  function SellerGuard(jar: CookieJar, now: int): (g: Guard)
    ensures CookieValue(jar, "accessToken") == Blank <==> g == RedirectTo(SellerLoginPath)
    ensures g == Throws <==> CookieValue(jar, "accessToken") != Blank && Verify(CookieValue(jar, "accessToken"), now).None?
    ensures g == Render <==>
              var c := Verify(CookieValue(jar, "accessToken"), now);
              c.Some? && c.value.role == Some("seller")
  {
    var t := CookieValue(jar, "accessToken");
    if t == Blank then RedirectTo(SellerLoginPath)
    else
      match Verify(t, now)
      case None => Throws
      case Some(c) => if c.role != Some("seller") then RedirectTo(UnauthorizedPath) else Render
  }

  /** The affiliate layout: `token` present and verifiable (else back to login) and for the role "affiliate". */
  function AffiliateGuard(jar: CookieJar, now: int): (g: Guard)
    ensures g != Throws
    ensures g == RedirectTo(AffiliateLoginPath) <==> Verify(CookieValue(jar, "token"), now).None?
    ensures g == Render <==>
              var c := Verify(CookieValue(jar, "token"), now);
              c.Some? && c.value.role == Some("affiliate")
  {
    var t := CookieValue(jar, "token");
    if t == Blank then RedirectTo(AffiliateLoginPath)
    else
      match Verify(t, now)
      case None => RedirectTo(AffiliateLoginPath)
      case Some(c) => if c.role != Some("affiliate") then RedirectTo(UnauthorizedPath) else Render
  }

  /** A seller's access cookie opens the seller pages while its token lives: ten minutes, though the cookie is kept for fifteen. */
  lemma SellerLoginOpensSellerPages(s: SellerModel.Seller, now: int, production: bool, later: int)
    requires later < now + AccessTokenTtl
    ensures var c := SellerAuth.LoginCookies(s, now, production);
            SellerGuard(map[c[0].name := c[0].value, c[1].name := c[1].value], later) == Render
  {
  }

  /** After the access token expires the seller guard throws instead of redirecting to the login page. */
  lemma SellerGuardThrowsWhenExpired(s: SellerModel.Seller, now: int, production: bool, later: int)
    requires later >= now + AccessTokenTtl
    ensures var c := SellerAuth.LoginCookies(s, now, production);
            SellerGuard(map[c[0].name := c[0].value, c[1].name := c[1].value], later) == Throws
  {
  }

  /** An affiliate's login cookie opens the affiliate pages, and never the seller pages. */
  lemma AffiliateLoginOpensAffiliatePages(a: AffiliateModel.Affiliate, now: int, production: bool, later: int)
    requires later < now + 7 * Day
    ensures var c := AffiliateAuth.TokenCookie(a, now, production);
            AffiliateGuard(map[c.name := c.value], later) == Render
            && SellerGuard(map[c.name := c.value], later) == RedirectTo(SellerLoginPath)
  {
  }

  // ---------------------------------------------------------------- the seller record routes

  /** The record a route returns and the paths it leaves out of it. */
  datatype SellerView = SellerView(record: SellerModel.Seller, hidden: set<string>)

  datatype DataReply = DataReply(status: int, data: Option<SellerView>)

  const SensitivePaths: set<string> := {"password", "emailVerificationToken", "phoneVerificationCode"}

  /**
   * `GET /api/seller/details`: the `token` cookie, verified; its
   * `sellerId` claim must be present and name a seller, whose record is
   * returned without the three sensitive paths.
   */
  function DetailsSpec(sellers: Sellers, jar: CookieJar, now: int): (r: DataReply)
    ensures r.status in {200, 401, 404}
    ensures r.status == 401 <==>
              var c := Verify(CookieValue(jar, "token"), now);
              c.None? || c.value.sellerId.None? || c.value.sellerId.value == ""
    ensures r.status == 200 <==> r.data.Some?
    ensures r.status == 200 ==>
              var id := Verify(CookieValue(jar, "token"), now).value.sellerId.value;
              var k := SellerModel.FindById(sellers, id);
              k.Some? && r.data.value == SellerView(sellers[k.value], SensitivePaths)
  {
    var t := CookieValue(jar, "token");
    if t == Blank then DataReply(401, None)
    else
      match Verify(t, now)
      case None => DataReply(401, None)
      case Some(c) =>
        if c.sellerId.None? || c.sellerId.value == "" then DataReply(401, None)
        else
          match SellerModel.FindById(sellers, c.sellerId.value)
          case None => DataReply(404, None)
          case Some(k) => DataReply(200, Some(SellerView(sellers[k], SensitivePaths)))
  }

  /** Every token the routes mint lacks `sellerId`, so details answers 401 to each of them. */
  lemma DetailsRefusesMintedTokens(sellers: Sellers, sub: string, role: string, version: Option<int>,
                                   issued: int, ttl: int, now: int)
    ensures DetailsSpec(sellers, map["token" := Issue(sub, role, version, issued, ttl)], now).status == 401
  {
  }

  predicate IsSemicolon(c: char) {
    c == ';'
  }

  /** Where `/token=([^;]+)/` can match: "token=" followed by at least one character other than ';'. */
  predicate MatchesAt(h: string, i: nat) {
    i + 6 < |h| && h[i..i + 6] == "token=" && h[i + 6] != ';'
  }

  /** The leftmost match at or after `from`. */
  function FirstMatch(h: string, from: nat): (r: Option<nat>)
    ensures r.Some? ==> from <= r.value && MatchesAt(h, r.value)
    ensures r.Some? ==> forall i :: from <= i < r.value ==> !MatchesAt(h, i)
    ensures r.None? ==> forall i :: from <= i ==> !MatchesAt(h, i)
    decreases |h| - from
  {
    if from + 6 >= |h| then None
    else if MatchesAt(h, from) then Some(from)
    else FirstMatch(h, from + 1)
  }

  /** The greedy `[^;]+`: the characters up to the next ';' or the end. */
  function UpToSemicolon(s: string): (r: string)
    ensures ';' !in r && StartsWith(s, r)
    ensures |r| < |s| ==> s[|r|] == ';'
  {
    match Lookup.FirstIndex(s, IsSemicolon)
    case None => s
    case Some(k) => s[..k]
  }

  /** The first capture of `/token=([^;]+)/` in the raw `Cookie` header. */
  function ExtractToken(h: string): (r: Option<string>)
    ensures r.Some? ==> r.value != "" && ';' !in r.value
    ensures r.Some? <==> exists i :: MatchesAt(h, i)
  {
    match FirstMatch(h, 0)
    case None => None
    case Some(i) => Some(UpToSemicolon(h[i + 6..]))
  }

  /** A header that starts with the cookie yields its value. */
  lemma ExtractLeadingCookie(v: string, rest: string)
    requires v != "" && ';' !in v
    ensures ExtractToken("token=" + v + ";" + rest) == Some(v)
  {
    var h := "token=" + v + ";" + rest;
    assert h[0..6] == "token=" && h[6] == v[0];
    assert h[6..] == v + ";" + rest;
    Lookup.FirstIndexIs(h[6..], IsSemicolon, |v|);
    assert h[6..][..|v|] == v;
  }

  /** A cookie whose name merely ends in "token" is matched just the same. */
  lemma ExtractInsideLongerName(v: string, rest: string)
    requires v != "" && ';' !in v
    ensures ExtractToken("mytoken=" + v + ";" + rest) == Some(v)
  {
    var h := "mytoken=" + v + ";" + rest;
    assert h[0..6] == "mytoke" && h[1..7] == "ytoken";
    assert h[2..8] == "token=" && h[8] == v[0];
    assert !MatchesAt(h, 0) && !MatchesAt(h, 1) && MatchesAt(h, 2);
    assert FirstMatch(h, 1) == Some(2);
    assert h[8..] == v + ";" + rest;
    Lookup.FirstIndexIs(h[8..], IsSemicolon, |v|);
    assert h[8..][..|v|] == v;
  }

  /**
   * `GET /api/seller/check`: the token text taken from the raw header is
   * read by `decode`; a verified token's `sellerId` names the seller whose
   * whole record, password hash included, is returned.
   */
  function CheckSpec(sellers: Sellers, header: string, decode: string -> Token, now: int): (r: DataReply)
    ensures r.status in {200, 401, 404}
    ensures r.status == 401 <==>
              ExtractToken(header).None? || Verify(decode(ExtractToken(header).value), now).None?
    ensures r.status == 200 <==> r.data.Some?
    ensures r.status == 200 ==>
              var c := Verify(decode(ExtractToken(header).value), now).value;
              c.sellerId.Some? && SellerModel.FindById(sellers, c.sellerId.value).Some?
              && r.data.value == SellerView(sellers[SellerModel.FindById(sellers, c.sellerId.value).value], {})
  {
    match ExtractToken(header)
    case None => DataReply(401, None)
    case Some(text) =>
      match Verify(decode(text), now)
      case None => DataReply(401, None)
      case Some(c) =>
        if c.sellerId.None? then DataReply(404, None)
        else
          match SellerModel.FindById(sellers, c.sellerId.value)
          case None => DataReply(404, None)
          case Some(k) => DataReply(200, Some(SellerView(sellers[k], {})))
  }

  /** Where both routes answer, check hides nothing that details hides, the password hash above all. */
  lemma CheckExposesWhatDetailsHides(sellers: Sellers, header: string, decode: string -> Token, now: int)
    requires CheckSpec(sellers, header, decode, now).status == 200
    ensures var v := CheckSpec(sellers, header, decode, now).data.value;
            v.hidden == {} && "password" in SensitivePaths - v.hidden
  {
  }

  // ---------------------------------------------------------------- login, then refresh

  /** Where the two refresh routes are served. */
  const SellerRefreshRoute: string := "/api/auth/seller/refresh"
  const SharedRefreshRoute: string := "/api/refresh"

  /**
   * The path seller login scopes its refresh cookie to serves neither
   * refresh route, so a browser never sends that cookie where it is read.
   */
  lemma RefreshCookieNeverSent()
    ensures !PathMatches(SellerRefreshRoute, SellerAuth.RefreshCookiePath)
    ensures !PathMatches(SharedRefreshRoute, SellerAuth.RefreshCookiePath)
  {
    assert SellerRefreshRoute[..|SellerAuth.RefreshCookiePath|] != SellerAuth.RefreshCookiePath by {
      assert SellerRefreshRoute[10] != SellerAuth.RefreshCookiePath[10];
    }
  }

  /** The refresh cookie's path as evidently intended: the seller refresh route itself. */
  const RefreshCookiePathCorrected: string := SellerRefreshRoute

  /** Scoped to the corrected path, the cookie reaches the seller refresh route, and only paths below it. */
  lemma RefreshCookieSentCorrected(requestPath: string)
    ensures PathMatches(SellerRefreshRoute, RefreshCookiePathCorrected)
    ensures PathMatches(requestPath, RefreshCookiePathCorrected) ==> StartsWith(requestPath, SellerRefreshRoute)
  {
    PathMatchNeedsPrefix(requestPath, RefreshCookiePathCorrected);
  }

  /**
   * A seller fresh from signup has no `tokenVersion`; login stamps 0 into
   * the refresh token, and the seller refresh route as written compares
   * that with the raw absent value. So a refresh token from a successful
   * login is honoured exactly when the record already held a version:
   * never for a seller who has not yet logged out once.
   */
  lemma LoginThenRefresh(store: Sellers, body: Option<SellerAuth.LoginInput>, isEmail: string -> bool,
                         matches: (string, string) -> bool, now: int, production: bool, later: int)
    requires SellerModel.UniqueKeys(store)
    requires SellerAuth.LoginTarget(store, body, isEmail).Some?
    requires matches(body.value.password.s, store[SellerAuth.LoginTarget(store, body, isEmail).value].password)
    requires now <= later < now + RefreshTokenTtl
    ensures var k := SellerAuth.LoginTarget(store, body, isEmail).value;
            var login := SellerAuth.LoginSpec(store, body, isEmail, matches, now, production);
            var jar := map["refreshToken" := login.reply.cookies[1].value];
            login.reply.status == 200
            && (SellerAuth.RefreshSpec(login.store, jar, later, production).status == 200 <==> store[k].tokenVersion.Some?)
            && (store[k].tokenVersion.None? ==> SellerAuth.RefreshSpec(login.store, jar, later, production).status == 401)
  {
    var k := SellerAuth.LoginTarget(store, body, isEmail).value;
    SellerAuth.LoginOutcome(store, body, isEmail, matches, now, production);
    LoginKeepsLookup(store, body, isEmail, matches, now, production);
  }

  /** With the corrected comparison, the same refresh token is honoured for its whole day. */
  lemma LoginThenRefreshCorrected(store: Sellers, body: Option<SellerAuth.LoginInput>, isEmail: string -> bool,
                                  matches: (string, string) -> bool, now: int, production: bool, later: int)
    requires SellerModel.UniqueKeys(store)
    requires SellerAuth.LoginTarget(store, body, isEmail).Some?
    requires matches(body.value.password.s, store[SellerAuth.LoginTarget(store, body, isEmail).value].password)
    requires now <= later
    ensures var login := SellerAuth.LoginSpec(store, body, isEmail, matches, now, production);
            var jar := map["refreshToken" := login.reply.cookies[1].value];
            SellerAuth.RefreshSpecCorrected(login.store, jar, later, production).status == 200 <==> later < now + RefreshTokenTtl
  {
    SellerAuth.LoginOutcome(store, body, isEmail, matches, now, production);
    LoginKeepsLookup(store, body, isEmail, matches, now, production);
  }

  /** After a successful login, the seller's `_id` still leads to the same record, with its version unchanged. */
  lemma LoginKeepsLookup(store: Sellers, body: Option<SellerAuth.LoginInput>, isEmail: string -> bool,
                         matches: (string, string) -> bool, now: int, production: bool)
    requires SellerModel.UniqueKeys(store)
    requires SellerAuth.LoginTarget(store, body, isEmail).Some?
    requires matches(body.value.password.s, store[SellerAuth.LoginTarget(store, body, isEmail).value].password)
    ensures var k := SellerAuth.LoginTarget(store, body, isEmail).value;
            var after := SellerAuth.LoginSpec(store, body, isEmail, matches, now, production).store;
            |after| == |store| && SellerModel.FindById(after, store[k].id) == Some(k)
            && after[k].id == store[k].id && after[k].tokenVersion == store[k].tokenVersion
  {
    var k := SellerAuth.LoginTarget(store, body, isEmail).value;
    SellerAuth.LoginOutcome(store, body, isEmail, matches, now, production);
    var after := SellerAuth.LoginSpec(store, body, isEmail, matches, now, production).store;
    Lookup.FirstIndexIs(after, (s: SellerModel.Seller) => s.id == store[k].id, k);
  }
}
