/**
 * The media helpers: the kind a MIME type is filed under, the size of a
 * file in megabytes rounded to the hundredth, and the stored file name
 * (a fresh UUID followed by the original's extension, as POSIX
 * `path.extname` finds it).
 */
module MediaProcessor {
  import opened Wrappers
  import opened Text
  import opened ProductModel

  /** `getKind(mime)`: the prefix tests run in this order and are case-sensitive. */
  function GetKind(mime: string): (k: MediaKind)
    ensures StartsWith(mime, "image/") ==> k == Image
    ensures !StartsWith(mime, "image/") && StartsWith(mime, "video/") ==> k == Video
    ensures k == Pdf <==> mime == "application/pdf"
    ensures k == Promo <==> !StartsWith(mime, "image/") && !StartsWith(mime, "video/") && mime != "application/pdf"
  {
    PdfHasNoMediaPrefix();
    if StartsWith(mime, "image/") then Image
    else if StartsWith(mime, "video/") then Video
    else if mime == "application/pdf" then Pdf
    else Promo
  }

  lemma PdfHasNoMediaPrefix()
    ensures !StartsWith("application/pdf", "image/") && !StartsWith("application/pdf", "video/")
  {
    assert "application/pdf"[..6] != "image/" by { assert "application/pdf"[..6][0] == 'a'; }
    assert "application/pdf"[..6] != "video/" by { assert "application/pdf"[..6][0] == 'a'; }
  }

  /** An upper-case prefix is not recognised. */
  lemma KindIsCaseSensitive()
    ensures GetKind("Image/png") == Promo && GetKind("VIDEO/mp4") == Promo
  {
    assert "Image/png"[..6] != "image/" by { assert "Image/png"[..6][0] == 'I'; }
    assert "Image/png"[..6] != "video/" by { assert "Image/png"[..6][0] == 'I'; }
    assert "VIDEO/mp4"[..6] != "image/" by { assert "VIDEO/mp4"[..6][0] == 'V'; }
    assert "VIDEO/mp4"[..6] != "video/" by { assert "VIDEO/mp4"[..6][0] == 'V'; }
  }

  const BytesPerMB: nat := 1024 * 1024

  /** `bytesToMB(bytes)` in hundredths of a megabyte: the nearest hundredth, halves rounded up. */
  function BytesToCentiMB(bytes: nat): nat {
    (100 * bytes + BytesPerMB / 2) / BytesPerMB
  }

  /** The rounded size is the nearest hundredth of the exact size. */
  lemma BytesToCentiMBNearest(bytes: nat)
    ensures var c := BytesToCentiMB(bytes);
            100 * bytes - BytesPerMB / 2 < c * BytesPerMB <= 100 * bytes + BytesPerMB / 2
  {
    var x := 100 * bytes + BytesPerMB / 2;
    assert x == (x / BytesPerMB) * BytesPerMB + x % BytesPerMB;
  }

  /** Sizes never round down below a smaller file's size. */
  lemma BytesToCentiMBMonotone(a: nat, b: nat)
    requires a <= b
    ensures BytesToCentiMB(a) <= BytesToCentiMB(b)
  {
    var x, y := 100 * a + BytesPerMB / 2, 100 * b + BytesPerMB / 2;
    assert (x / BytesPerMB) * BytesPerMB <= x <= y < (y / BytesPerMB + 1) * BytesPerMB;
  }

  /** The last position of `c` in `s`. */
  function LastIndexOf(s: string, c: char): (r: Option<nat>)
    ensures r.Some? ==> r.value < |s| && s[r.value] == c && forall j :: r.value < j < |s| ==> s[j] != c
    ensures r.None? ==> forall j :: 0 <= j < |s| ==> s[j] != c
  {
    if s == [] then None
    else if s[|s| - 1] == c then Some(|s| - 1)
    else LastIndexOf(s[..|s| - 1], c)
  }

  function StripTrailingSlashes(p: string): (r: string)
    ensures |r| <= |p| && r == p[..|r|] && (r == [] || r[|r| - 1] != '/')
  {
    if p != [] && p[|p| - 1] == '/' then StripTrailingSlashes(p[..|p| - 1]) else p
  }

  /** The last path segment. */
  function Basename(p: string): (b: string)
    ensures |b| <= |p| && '/' !in b && b == p[|p| - |b|..]
  {
    match LastIndexOf(p, '/')
    case None => p
    case Some(k) => p[k + 1..]
  }

  /**
   * `path.extname(p)`: from the last '.' of the last segment to its end;
   * empty when the segment has no '.', when its only '.' is its first
   * character, and for "..".
   */
  function ExtName(p: string): (e: string)
    ensures e == [] || (e[0] == '.' && '.' !in e[1..] && '/' !in e)
    ensures EndsWith(StripTrailingSlashes(p), e)
  {
    var s := StripTrailingSlashes(p);
    var b := Basename(s);
    match LastIndexOf(b, '.')
    case None => ""
    case Some(d) =>
      if d == 0 || b == ".." then ""
      else
        ExtensionOfSegment(s, b, d);
        b[d..]
  }

  /** The tail of a last segment from its last '.' on is an extension that ends the path. */
  lemma ExtensionOfSegment(s: string, b: string, d: nat)
    requires |b| <= |s| && b == s[|s| - |b|..] && '/' !in b
    requires d < |b| && b[d] == '.' && forall j :: d < j < |b| ==> b[j] != '.'
    ensures b[d..][0] == '.' && '.' !in b[d..][1..] && '/' !in b[d..]
    ensures EndsWith(s, b[d..])
  {
    var e := b[d..];
    assert e[1..] == b[d + 1..];
    assert s[|s| - |e|..] == e;
  }

  /** `generateFilename(original)` with the fresh UUID as a parameter. */
  function GenerateFilename(uuid: string, original: string): (f: string)
    ensures EndsWith(f, ExtName(original))
  {
    uuid + ExtName(original)
  }

  /** The last occurrence is the one with no later occurrence. */
  lemma {:induction false} LastIndexOfIs(s: string, c: char, k: nat)
    requires k < |s| && s[k] == c && forall j :: k < j < |s| ==> s[j] != c
    ensures LastIndexOf(s, c) == Some(k)
  {
    if k < |s| - 1 {
      LastIndexOfIs(s[..|s| - 1], c, k);
    }
  }

  /** A name with no '/' is its own last segment. */
  lemma PlainName(f: string)
    requires f != [] && '/' !in f
    ensures Basename(StripTrailingSlashes(f)) == f
  {
    assert f[|f| - 1] in f;
    assert StripTrailingSlashes(f) == f;
  }

  /** The extension of a plain name whose last '.' is at `k`, past its first character. */
  lemma PlainExtName(f: string, k: nat)
    requires '/' !in f && 0 < k < |f| && f[k] == '.' && f[0] != '.'
    requires forall j :: k < j < |f| ==> f[j] != '.'
    ensures ExtName(f) == f[k..]
  {
    PlainName(f);
    LastIndexOfIs(f, '.', k);
  }

  /** A stored name has exactly the extension of the uploaded file's name. */
  lemma GeneratedKeepsExtension(uuid: string, original: string)
    requires uuid != [] && '.' !in uuid && '/' !in uuid
    ensures ExtName(GenerateFilename(uuid, original)) == ExtName(original)
  {
    var e := ExtName(original);
    var f := uuid + e;
    assert '/' !in f;
    if e == [] {
      assert f == uuid;
      PlainName(f);
    } else {
      forall j | |uuid| < j < |f| ensures f[j] != '.' {
        assert f[j] == e[1..][j - |uuid| - 1];
      }
      assert f[0] == uuid[0];
      PlainExtName(f, |uuid|);
      assert f[|uuid|..] == e;
    }
  }
}
