/** `generateAffiliateId`: a URL slug of the full name followed by a random suffix. */
module AffiliateId {
  import opened Text
  import Lists

  /** The characters `/[^a-z0-9\-]/g` keeps. */
  predicate SlugChar(c: char) {
    'a' <= c <= 'z' || '0' <= c <= '9' || c == '-'
  }

  /** The alphabet of the six-character random suffix. */
  predicate SuffixChar(c: char) {
    'a' <= c <= 'z' || '0' <= c <= '9'
  }

  const SuffixLength: nat := 6

  /** `.replace(/\s+/g, "-")`: every maximal run of blanks becomes one "-". */
  function CollapseSpace(s: string): (r: string)
    ensures forall i :: 0 <= i < |r| ==> !IsSpace(r[i])
    decreases |s|
  {
    if s == [] then []
    else if IsSpace(s[0]) then "-" + CollapseSpace(TrimStart(s[1..]))
    else [s[0]] + CollapseSpace(s[1..])
  }

  /** `.replace(/[^a-z0-9\-]/g, "")`. */
  function KeepSlugChars(s: string): string {
    Lists.Filter(s, SlugChar)
  }

  /** The slug: trim, lower-case, collapse blanks, drop everything outside `[a-z0-9-]`. */
  function Slug(fullName: string): (r: string)
    ensures forall i :: 0 <= i < |r| ==> SlugChar(r[i])
  {
    KeepSlugChars(CollapseSpace(ToLower(Trim(fullName))))
  }

  /** `generateAffiliateId(fullName)`, with the random suffix given. */
  function GenerateAffiliateId(fullName: string, suffix: string): (r: string)
    requires |suffix| == SuffixLength && forall i :: 0 <= i < |suffix| ==> SuffixChar(suffix[i])
    ensures |r| == |Slug(fullName)| + 7
    ensures forall i :: 0 <= i < |r| ==> SlugChar(r[i])
    ensures r[..|r| - 7] == Slug(fullName) && r[|r| - 7] == '-' && r[|r| - 6..] == suffix
  {
    var slug := Slug(fullName);
    var r := slug + "-" + suffix;
    assert forall i :: 0 <= i < |r| ==> SlugChar(r[i]) by {
      forall i | 0 <= i < |r| ensures SlugChar(r[i]) {
        if i < |slug| {
          assert r[i] == slug[i];
        } else if i > |slug| {
          assert r[i] == suffix[i - |slug| - 1] && SuffixChar(suffix[i - |slug| - 1]);
        } else {
          assert r[i] == '-';
        }
      }
    }
    r
  }

  /** A word followed by a run of blanks: the run is replaced by exactly one "-". */
  lemma {:induction false} RunBecomesOneDash(w: string, run: string, rest: string)
    requires forall i :: 0 <= i < |w| ==> !IsSpace(w[i])
    requires run != [] && forall i :: 0 <= i < |run| ==> IsSpace(run[i])
    requires rest == [] || !IsSpace(rest[0])
    ensures CollapseSpace(w + run + rest) == w + "-" + CollapseSpace(rest)
  {
    if w == [] {
      assert w + run + rest == run + rest;
      assert TrimStart((run + rest)[1..]) == rest by {
        TrimStartOfRun(run[1..], rest);
        assert (run + rest)[1..] == run[1..] + rest;
      }
    } else {
      assert (w + run + rest)[1..] == w[1..] + run + rest;
      RunBecomesOneDash(w[1..], run, rest);
    }
  }

  lemma {:induction false} TrimStartOfRun(run: string, rest: string)
    requires forall i :: 0 <= i < |run| ==> IsSpace(run[i])
    requires rest == [] || !IsSpace(rest[0])
    ensures TrimStart(run + rest) == rest
  {
    if run != [] {
      assert (run + rest)[1..] == run[1..] + rest;
      TrimStartOfRun(run[1..], rest);
    } else {
      assert run + rest == rest;
    }
  }

  /** A string without blanks is left alone by the collapse. */
  lemma {:induction false} CollapseNoSpace(s: string)
    requires forall i :: 0 <= i < |s| ==> !IsSpace(s[i])
    ensures CollapseSpace(s) == s
  {
    if s != [] {
      CollapseNoSpace(s[1..]);
    }
  }

  lemma SlugCharFixed(c: char)
    requires SlugChar(c)
    ensures !IsSpace(c) && LowerChar(c) == c
  {
  }

  /** A string of slug characters is its own trim and its own lower-case form. */
  lemma SlugStringFixed(t: string)
    requires forall i :: 0 <= i < |t| ==> SlugChar(t[i])
    ensures forall i :: 0 <= i < |t| ==> !IsSpace(t[i])
    ensures Trim(t) == t && ToLower(t) == t
  {
    forall i | 0 <= i < |t| ensures !IsSpace(t[i]) && LowerChar(t[i]) == t[i] {
      SlugCharFixed(t[i]);
    }
    if t != [] {
      TrimNoEdgeSpace(t);
    }
  }

  /** Slugging a slug gives it back. */
  lemma SlugIdempotent(fullName: string)
    ensures Slug(Slug(fullName)) == Slug(fullName)
  {
    var t := Slug(fullName);
    SlugStringFixed(t);
    CollapseNoSpace(t);
    Lists.FilterKeepsAll(t, SlugChar);
  }
}
