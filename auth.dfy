/**
 * The auth helpers: the `Set-Cookie` header text for the `token` cookie
 * (attributes as in section 4.1 of RFC 6265) and the default lifetime of
 * `signJwt`. Hashing, comparing and signing are oracles.
 */
module Auth {
  import opened Wrappers
  import opened Text
  import opened Tokens
  import Lists

  /** Seven days, in seconds: the default `Max-Age` of the `token` cookie. */
  const DefaultCookieMaxAge: nat := 60 * 60 * 24 * 7

  /** `parts.join(sep)`. */
  function Join(parts: seq<string>, sep: string): string {
    if parts == [] then ""
    else if |parts| == 1 then parts[0]
    else Join(parts[..|parts| - 1], sep) + sep + parts[|parts| - 1]
  }

  /** `Boolean` as a filter on strings: the empty string is dropped. */
  function NonEmpty(s: string): bool { s != "" }

  /** The attribute list `setJwtCookie` builds before filtering. */
  function CookieParts(token: string, maxAge: nat, production: bool): seq<string> {
    ["token=" + token, "HttpOnly", "Path=/", "Max-Age=" + NatToString(maxAge),
     "SameSite=Lax", if production then "Secure" else ""]
  }

  /**
   * `setJwtCookie(token, maxAge)`: the attribute list with an empty entry
   * in place of `Secure` outside production, empty entries filtered out,
   * joined with "; ". The result is the fixed attribute sequence with no
   * empty segment and no trailing separator.
   */
  function SetJwtCookie(token: string, maxAge: nat, production: bool): (r: string)
    ensures r == "token=" + token + "; HttpOnly; Path=/; Max-Age=" + NatToString(maxAge)
                 + "; SameSite=Lax" + (if production then "; Secure" else "")
  {
    CookieShape(token, maxAge, production);
    Join(Lists.Filter(CookieParts(token, maxAge, production), NonEmpty), "; ")
  }

  lemma CookieShape(token: string, maxAge: nat, production: bool)
    ensures Join(Lists.Filter(CookieParts(token, maxAge, production), NonEmpty), "; ")
            == "token=" + token + "; HttpOnly; Path=/; Max-Age=" + NatToString(maxAge)
               + "; SameSite=Lax" + (if production then "; Secure" else "")
  {
    JoinedParts("token=" + token, NatToString(maxAge), production);
  }

  lemma JoinedParts(t: string, ns: string, production: bool)
    requires t != ""
    ensures Join(Lists.Filter([t, "HttpOnly", "Path=/", "Max-Age=" + ns, "SameSite=Lax",
                               if production then "Secure" else ""], NonEmpty), "; ")
            == t + "; HttpOnly; Path=/; Max-Age=" + ns + "; SameSite=Lax" + (if production then "; Secure" else "")
  {
    var parts := [t, "HttpOnly", "Path=/", "Max-Age=" + ns, "SameSite=Lax", if production then "Secure" else ""];
    FilterSix(parts, production);
    assert parts[..5] == [t, "HttpOnly", "Path=/", "Max-Age=" + ns, "SameSite=Lax"];
    if production {
      SecureJoined(t, ns);
    } else {
      FiveJoined(t, ns);
    }
  }

  lemma FiveJoined(t: string, ns: string)
    ensures Join([t, "HttpOnly", "Path=/", "Max-Age=" + ns, "SameSite=Lax"], "; ")
            == t + "; HttpOnly; Path=/; Max-Age=" + ns + "; SameSite=Lax" + ""
  {
    JoinFive(t, "HttpOnly", "Path=/", "Max-Age=" + ns, "SameSite=Lax", "; ");
    FixedSegments(t, ns);
  }

  lemma SecureJoined(t: string, ns: string)
    ensures Join([t, "HttpOnly", "Path=/", "Max-Age=" + ns, "SameSite=Lax", "Secure"], "; ")
            == t + "; HttpOnly; Path=/; Max-Age=" + ns + "; SameSite=Lax" + "; Secure"
  {
    var five := [t, "HttpOnly", "Path=/", "Max-Age=" + ns, "SameSite=Lax"];
    FiveJoined(t, ns);
    assert five + ["Secure"] == [t, "HttpOnly", "Path=/", "Max-Age=" + ns, "SameSite=Lax", "Secure"];
    JoinSnoc(five, "Secure", "; ");
  }

  lemma FixedSegments(t: string, ns: string)
    ensures t + "; " + "HttpOnly" + "; " + "Path=/" + "; " + ("Max-Age=" + ns) + "; " + "SameSite=Lax"
            == t + "; HttpOnly; Path=/; Max-Age=" + ns + "; SameSite=Lax"
  {
  }

  lemma JoinFive(a: string, b: string, c: string, d: string, e: string, sep: string)
    ensures Join([a, b, c, d, e], sep) == a + sep + b + sep + c + sep + d + sep + e
  {
    assert [a, b][..1] == [a];
    assert Join([a, b], sep) == a + sep + b;
    assert [a, b, c][..2] == [a, b];
    assert Join([a, b, c], sep) == a + sep + b + sep + c;
    assert [a, b, c, d][..3] == [a, b, c];
    assert Join([a, b, c, d], sep) == a + sep + b + sep + c + sep + d;
    assert [a, b, c, d, e][..4] == [a, b, c, d];
  }

  /** Joining one more part appends the separator and the part. */
  lemma JoinSnoc(parts: seq<string>, x: string, sep: string)
    requires parts != []
    ensures Join(parts + [x], sep) == Join(parts, sep) + sep + x
  {
    assert (parts + [x])[..|parts|] == parts;
  }

  /** The filter keeps the five fixed attributes and keeps `Secure` exactly in production. */
  lemma FilterSix(parts: seq<string>, production: bool)
    requires |parts| == 6 && forall i :: 0 <= i < 5 ==> parts[i] != ""
    requires parts[5] == (if production then "Secure" else "")
    ensures Lists.Filter(parts, NonEmpty) == if production then parts else parts[..5]
  {
    assert parts == parts[..5] + parts[5..];
    Lists.FilterAppend(parts[..5], parts[5..], NonEmpty);
    Lists.FilterKeepsAll(parts[..5], NonEmpty);
    assert parts[5..][1..] == [];
  }

  /** The header names the `token` cookie and carries the token as its value. */
  lemma CookieStartsWithToken(token: string, maxAge: nat, production: bool)
    ensures StartsWith(SetJwtCookie(token, maxAge, production), "token=" + token)
  {
    var r := SetJwtCookie(token, maxAge, production);
    assert r[..|"token=" + token|] == "token=" + token;
  }

  /** `Secure` is the last attribute exactly in production. */
  lemma SecureIffProduction(token: string, maxAge: nat, production: bool)
    ensures EndsWith(SetJwtCookie(token, maxAge, production), "; Secure") <==> production
  {
    var r := SetJwtCookie(token, maxAge, production);
    if !production {
      assert r[|r| - 8..] == "Site=Lax";
    }
  }

  /** `signJwt(payload)` with no options: a token good for seven days. */
  function SignJwt(sub: string, role: string, now: int): (t: Token)
    ensures forall at :: Verify(t, at).Some? <==> at < now + 7 * Day
    ensures t.Jwt? && t.claims.sub == Some(sub) && t.claims.role == Some(role)
  {
    Issue(sub, role, None, now, SignJwtDefaultTtl)
  }

  /** The cookie's default lifetime and the token's default lifetime agree. */
  lemma CookieMatchesTokenLifetime()
    ensures DefaultCookieMaxAge * Second == SignJwtDefaultTtl
  {
  }
}
