/**
 * Signed tokens as an oracle. A cookie carries either nothing, text that is
 * not a token at all, or a token whose claims can be read and whose
 * signature is genuine or forged. Verification succeeds exactly when the
 * signature is genuine and the current time is before the `exp` claim
 * (section 4.1.4 of RFC 7519); signing and the secret are not modelled.
 * Time is in milliseconds throughout.
 */
module Tokens {
  import opened Wrappers

  const Second: int := 1000
  const Minute: int := 60 * Second
  const Hour: int := 60 * Minute
  const Day: int := 24 * Hour

  /** Lifetime of `signAccessToken` and of the two-argument `signJwt` default in the token library. */
  const AccessTokenTtl: int := 10 * Minute
  /** Lifetime of `signRefreshToken`. */
  const RefreshTokenTtl: int := Day
  /** Lifetime `signJwt` in the auth helpers uses when no options are given. */
  const SignJwtDefaultTtl: int := 7 * Day

  datatype Claims = Claims(
    sub: Option<string>,
    role: Option<string>,
    tokenVersion: Option<int>,
    sellerId: Option<string>,
    exp: int)

  datatype Token = Blank | Garbage | Jwt(claims: Claims, genuine: bool)

  /** A token signed now with the server's secret, carrying `sub`, `role` and possibly a version. */
  function Issue(sub: string, role: string, version: Option<int>, now: int, ttl: int): (t: Token)
    ensures t.Jwt? && t.claims.sub == Some(sub) && t.claims.role == Some(role)
    ensures t.claims.tokenVersion == version && t.claims.sellerId.None?
    ensures forall at :: Verify(t, at).Some? <==> at < now + ttl
  {
    Jwt(Claims(Some(sub), Some(role), version, None, now + ttl), true)
  }

  /** `jwt.verify` / `jwtVerify`: the claims when the token is genuine and unexpired, else nothing (the library throws). */
  function Verify(t: Token, now: int): (r: Option<Claims>)
    ensures r.Some? <==> t.Jwt? && t.genuine && now < t.claims.exp
    ensures r.Some? ==> r.value == t.claims
  {
    if t.Jwt? && t.genuine && now < t.claims.exp then Some(t.claims) else None
  }

  /** Base64-decoding the middle segment: the claims of anything shaped like a token, checked or not. */
  function DecodeUnverified(t: Token): (r: Option<Claims>)
    ensures r.Some? <==> t.Jwt?
  {
    if t.Jwt? then Some(t.claims) else None
  }

  /** Verification is monotone in time: once a token fails for being late, it fails forever after. */
  lemma VerifyMonotone(t: Token, early: int, late: int)
    requires early <= late
    ensures Verify(t, late).Some? ==> Verify(t, early).Some?
  {
  }
}

/** The request and response pieces every handler deals in. */
module Http {
  import opened Wrappers
  import opened Tokens
  import opened Text

  /** The cookies a request carries, by name. */
  type CookieJar = map<string, Token>

  /** `cookies().get(name)?.value`, with a missing cookie read as blank: the handlers test it with `!token`. */
  function CookieValue(jar: CookieJar, name: string): Token {
    if name in jar then jar[name] else Blank
  }

  datatype SameSite = Unspecified | Lax | Strict

  /** One `Set-Cookie` a response carries. */
  datatype SetCookie = SetCookie(
    name: string,
    value: Token,
    path: string,
    maxAge: int,
    httpOnly: bool,
    sameSite: SameSite,
    secure: bool)

  /** An email a handler hands to the mailer: recipient and verification token. */
  datatype Mail = Mail(to: string, token: string)

  datatype Reply = Reply(
    status: int,
    message: string,
    cookies: seq<SetCookie>,
    location: Option<string>,
    mail: Option<Mail>)

  /** The status `NextResponse.redirect` answers with. */
  const RedirectStatus: int := 307

  function Json(status: int, message: string): Reply {
    Reply(status, message, [], None, None)
  }

  /** A field of a parsed JSON body: absent, a string, or some other value, truthy or not. */
  datatype JsonField = Missing | Text(s: string) | NonText(truthy: bool)

  /** Whether JavaScript's `!value` holds for the field. */
  predicate Falsy(f: JsonField) {
    f.Missing? || (f.Text? && f.s == "") || (f.NonText? && !f.truthy)
  }

  /** A string field of at least `n` characters, as `z.string().min(n)` accepts it. */
  predicate MinText(f: JsonField, n: nat) {
    f.Text? && |f.s| >= n
  }

  /** The catch-all answer of a handler whose body threw. */
  const ServerError: Reply := Reply(500, "Server error", [], None, None)

  /** A cookie overwritten with an empty value and `maxAge` 0, which makes the browser drop it. */
  predicate Clears(c: SetCookie, name: string, path: string) {
    c.name == name && c.value == Blank && c.path == path && c.maxAge == 0
  }

  /** Path-match of section 5.1.4 of RFC 6265: whether a cookie scoped to `cookiePath` is sent with a request for `requestPath`. */
  predicate PathMatches(requestPath: string, cookiePath: string) {
    requestPath == cookiePath
    || (StartsWith(requestPath, cookiePath) && EndsWith(cookiePath, "/"))
    || (StartsWith(requestPath, cookiePath) && |requestPath| > |cookiePath| && requestPath[|cookiePath|] == '/')
  }

  /** A cookie scoped to a path is only sent to requests under that path. */
  lemma PathMatchNeedsPrefix(requestPath: string, cookiePath: string)
    ensures PathMatches(requestPath, cookiePath) ==> StartsWith(requestPath, cookiePath)
  {
  }
}
