/**
 * The seller's upload page: the state the page keeps while a product is
 * put together (the typed details, up to four images, three videos and
 * one PDF, the error list), the selection handlers that screen chosen
 * files, the remove handlers, the pre-submit validation and the submit,
 * which posts every file to the media upload route on its own.
 */
module UploadPage {
  import opened Wrappers
  import opened Text
  import Lists
  import opened MediaProcessor
  import opened MediaUpload

  const MaxImageSizeMB: nat := 5
  const MaxVideoSizeMB: nat := 50
  const MaxPdfSizeMB: nat := 10
  const RequiredImages: nat := 4
  const RequiredVideos: nat := 3
  const MaxVideoSeconds: real := 60.0

  datatype MediaType = ImageType | VideoType

  /** A chosen file as the page keeps it; the preview URL is not modelled. */
  datatype MediaFile = MediaFile(id: string, file: File, mediaType: MediaType, sizeCentiMB: nat, duration: Option<real>)

  datatype Status = Draft | Published

  /** The typed product details, as the text the inputs hold. */
  datatype Details = Details(title: string, description: string, category: string, tags: string,
                             price: string, currency: string, status: Status)

  const InitialDetails: Details := Details("", "", "", "", "", "UGX", Draft)

  const SuccessMessage: string := "Project uploaded successfully."
  const TooManyImages: string := "You must upload exactly 4 images."
  const TooManyVideos: string := "You must upload exactly 3 videos."

  /** `file.size / 1024 / 1024 > mb`, in exact arithmetic. */
  predicate OverMB(f: File, mb: nat) {
    f.size > mb * BytesPerMB
  }

  /** `makeMediaFile`: `id` is the identifier `randomUUID` drew. */
  function Make(f: File, t: MediaType, id: string, duration: Option<real>): MediaFile {
    MediaFile(id, f, t, BytesToCentiMB(f.size), duration)
  }

  /** What a screening loop produces: the files it accepts and the messages it appends, each in order. */
  datatype Scan = Scan(made: seq<MediaFile>, errors: seq<string>)

  // ---- Images ----

  /** Why a chosen file cannot be an image, if it cannot. */
  function ImageProblem(f: File): Option<string> {
    if !StartsWith(f.mimeType, "image/") then Some(f.name + " is not an image.")
    else if OverMB(f, MaxImageSizeMB) then Some(f.name + " exceeds 5MB.")
    else None
  }

  predicate ImageOk(f: File) {
    ImageProblem(f).None?
  }

  /** The loop over the chosen files; `ids(i)` is the identifier for the i-th file. */
  function ImageScan(files: seq<File>, ids: nat -> string): (r: Scan)
    ensures |r.made| + |r.errors| == |files|
  {
    if files == [] then Scan([], [])
    else
      var n := |files| - 1;
      var s := ImageScan(files[..n], ids);
      match ImageProblem(files[n])
      case Some(e) => Scan(s.made, s.errors + [e])
      case None => Scan(s.made + [Make(files[n], ImageType, ids(n), None)], s.errors)
  }

  /** The image list and error list after `handleImageSelect`. */
  datatype Selection = Selection(media: seq<MediaFile>, errors: seq<string>)

  function ImageSelect(images: seq<MediaFile>, files: seq<File>, ids: nat -> string): (r: Selection)
    ensures files == [] ==> r == Selection(images, [])
    ensures |images| <= RequiredImages ==> |r.media| <= RequiredImages
    ensures r.media == images || r.media == images + ImageScan(files, ids).made
  {
    if files == [] then Selection(images, [])
    else
      var s := ImageScan(files, ids);
      if |images| + |s.made| > RequiredImages then Selection(images, s.errors + [TooManyImages])
      else Selection(images + s.made, s.errors)
  }

  function FileOf(m: MediaFile): File { m.file }

  function FilesOf(ms: seq<MediaFile>): (r: seq<File>)
    ensures |r| == |ms|
  {
    if ms == [] then [] else FilesOf(ms[..|ms| - 1]) + [ms[|ms| - 1].file]
  }

  /** The accepted images are exactly the acceptable chosen files, in order, and every other file has its message. */
  lemma ImageScanAccepts(files: seq<File>, ids: nat -> string)
    ensures FilesOf(ImageScan(files, ids).made) == Lists.Filter(files, ImageOk)
    ensures |ImageScan(files, ids).errors| == |files| - |Lists.Filter(files, ImageOk)|
    ensures forall i :: 0 <= i < |ImageScan(files, ids).made| ==> ImageScan(files, ids).made[i].mediaType == ImageType
  {
    ImageScanFiles(files, ids);
    ImageScanTypes(files, ids);
  }

  lemma {:induction false} ImageScanFiles(files: seq<File>, ids: nat -> string)
    ensures FilesOf(ImageScan(files, ids).made) == Lists.Filter(files, ImageOk)
  {
    if files != [] {
      var n := |files| - 1;
      var s := ImageScan(files[..n], ids).made;
      ImageScanFiles(files[..n], ids);
      assert files[..n] + [files[n]] == files;
      Lists.FilterAppend(files[..n], [files[n]], ImageOk);
      assert [files[n]][1..] == [];
      if ImageOk(files[n]) {
        var m := Make(files[n], ImageType, ids(n), None);
        assert ImageScan(files, ids).made == s + [m];
        assert (s + [m])[..|s|] == s;
        assert Lists.Filter([files[n]], ImageOk) == [files[n]];
      } else {
        assert ImageScan(files, ids).made == s;
        assert Lists.Filter([files[n]], ImageOk) == [];
      }
    }
  }

  lemma {:induction false} ImageScanTypes(files: seq<File>, ids: nat -> string)
    ensures forall i :: 0 <= i < |ImageScan(files, ids).made| ==> ImageScan(files, ids).made[i].mediaType == ImageType
  {
    if files != [] {
      ImageScanTypes(files[..|files| - 1], ids);
    }
  }

  /** An accepted image has an "image/" type and is at most 5 MB. */
  lemma ImageScanScreens(files: seq<File>, ids: nat -> string)
    ensures forall i :: 0 <= i < |ImageScan(files, ids).made| ==>
              StartsWith(ImageScan(files, ids).made[i].file.mimeType, "image/")
              && !OverMB(ImageScan(files, ids).made[i].file, MaxImageSizeMB)
  {
    ImageScanAccepts(files, ids);
    var made := ImageScan(files, ids).made;
    forall i | 0 <= i < |made|
      ensures StartsWith(made[i].file.mimeType, "image/") && !OverMB(made[i].file, MaxImageSizeMB)
    {
      FilesOfAt(made, i);
      assert ImageOk(Lists.Filter(files, ImageOk)[i]);
    }
  }

  lemma {:induction false} FilesOfAt(ms: seq<MediaFile>, i: nat)
    requires i < |ms|
    ensures FilesOf(ms)[i] == ms[i].file
  {
    if i < |ms| - 1 {
      FilesOfAt(ms[..|ms| - 1], i);
    }
  }

  /** Too many acceptable images in one selection adds none of them. */
  lemma ImageSelectAllOrNothing(images: seq<MediaFile>, files: seq<File>, ids: nat -> string)
    requires files != []
    ensures var r := ImageSelect(images, files, ids);
            |images| + |Lists.Filter(files, ImageOk)| > RequiredImages
            <==> (r.media == images && |r.errors| > 0 && r.errors[|r.errors| - 1] == TooManyImages)
    ensures var r := ImageSelect(images, files, ids);
            |images| + |Lists.Filter(files, ImageOk)| <= RequiredImages
            ==> FilesOf(r.media[|images|..]) == Lists.Filter(files, ImageOk) && r.media[..|images|] == images
  {
    ImageScanAccepts(files, ids);
    var s := ImageScan(files, ids);
    var r := ImageSelect(images, files, ids);
    if |images| + |s.made| <= RequiredImages {
      assert r.media == images + s.made;
      assert r.media[|images|..] == s.made && r.media[..|images|] == images;
      NoImageErrorIsTooMany(files, ids);
      if |r.errors| > 0 {
        assert r.errors[|r.errors| - 1] in s.errors;
      }
    }
  }

  /** The per-file messages all name a file, so none is the count message. */
  lemma {:induction false} NoImageErrorIsTooMany(files: seq<File>, ids: nat -> string)
    ensures TooManyImages !in ImageScan(files, ids).errors
  {
    if files != [] {
      var n := |files| - 1;
      NoImageErrorIsTooMany(files[..n], ids);
      var f := files[n];
      if !StartsWith(f.mimeType, "image/") {
        NotCountMessage(f.name, " is not an image.");
      } else if OverMB(f, MaxImageSizeMB) {
        NotCountMessage(f.name, " exceeds 5MB.");
      }
    }
  }

  /** A message ending in a file-specific suffix other than the count message's. */
  lemma NotCountMessage(name: string, suffix: string)
    requires suffix == " is not an image." || suffix == " exceeds 5MB."
    ensures name + suffix != TooManyImages
  {
    var m := name + suffix;
    assert m[|m| - 3..] == suffix[|suffix| - 3..];
    assert TooManyImages[|TooManyImages| - 3..] == "es.";
  }

  // ---- Videos ----

  /**
   * Why a chosen file cannot be added as a video, if it cannot:
   * `duration` is the length the browser reads for it (None when it
   * cannot be read), and `count` the length of the video list the test
   * is made against.
   */
  function VideoProblem(f: File, duration: Option<real>, count: nat): Option<string> {
    if !StartsWith(f.mimeType, "video/") then Some(f.name + " is not a video.")
    else if OverMB(f, MaxVideoSizeMB) then Some(f.name + " exceeds 50MB.")
    else if duration.None? then Some("Could not read duration for " + f.name + ".")
    else if duration.value > MaxVideoSeconds then Some(f.name + " exceeds 60s.")
    else if count + 1 > RequiredVideos then Some(TooManyVideos)
    else None
  }

  /**
   * `handleVideoSelect` as written: every file is tested against
   * `stale`, the list length when the handler was created, while
   * accepted videos are appended to the current list.
   */
  function VideoScan(stale: nat, files: seq<File>, durations: File -> Option<real>, ids: nat -> string): (r: Scan)
    ensures |r.made| + |r.errors| == |files|
  {
    if files == [] then Scan([], [])
    else
      var n := |files| - 1;
      var s := VideoScan(stale, files[..n], durations, ids);
      match VideoProblem(files[n], durations(files[n]), stale)
      case Some(e) => Scan(s.made, s.errors + [e])
      case None => Scan(s.made + [Make(files[n], VideoType, ids(n), durations(files[n]))], s.errors)
  }

  function VideoSelect(videos: seq<MediaFile>, files: seq<File>, durations: File -> Option<real>,
                       ids: nat -> string): (r: Selection)
    ensures |r.media| >= |videos| && r.media[..|videos|] == videos
  {
    var s := VideoScan(|videos|, files, durations, ids);
    assert (videos + s.made)[..|videos|] == videos;
    Selection(videos + s.made, s.errors)
  }

  /** A file the video screen would take on its own merits. */
  predicate GoodVideo(f: File, durations: File -> Option<real>) {
    StartsWith(f.mimeType, "video/") && !OverMB(f, MaxVideoSizeMB)
    && durations(f).Some? && durations(f).value <= MaxVideoSeconds
  }

  /** With at most two videos before the selection, every good video of the selection is added. */
  lemma {:induction false} VideoScanTakesAll(stale: nat, files: seq<File>, durations: File -> Option<real>, ids: nat -> string)
    requires stale < RequiredVideos
    requires forall i :: 0 <= i < |files| ==> GoodVideo(files[i], durations)
    ensures |VideoScan(stale, files, durations, ids).made| == |files|
  {
    if files != [] {
      VideoScanTakesAll(stale, files[..|files| - 1], durations, ids);
    }
  }

  /** One selection of four good videos on an empty list leaves four videos, past the three the page requires. */
  lemma VideoSelectOverflows(f: File, durations: File -> Option<real>, ids: nat -> string)
    requires GoodVideo(f, durations)
    ensures |VideoSelect([], [f, f, f, f], durations, ids).media| == 4 > RequiredVideos
  {
    VideoScanTakesAll(0, [f, f, f, f], durations, ids);
  }

  /** The same screen, with each file tested against the list as it has grown so far. */
  function VideoScanCorrected(start: nat, files: seq<File>, durations: File -> Option<real>, ids: nat -> string): (r: Scan)
    ensures |r.made| + |r.errors| == |files|
    ensures start <= RequiredVideos ==> start + |r.made| <= RequiredVideos
  {
    if files == [] then Scan([], [])
    else
      var n := |files| - 1;
      var s := VideoScanCorrected(start, files[..n], durations, ids);
      match VideoProblem(files[n], durations(files[n]), start + |s.made|)
      case Some(e) => Scan(s.made, s.errors + [e])
      case None => Scan(s.made + [Make(files[n], VideoType, ids(n), durations(files[n]))], s.errors)
  }

  function VideoSelectCorrected(videos: seq<MediaFile>, files: seq<File>, durations: File -> Option<real>,
                                ids: nat -> string): (r: Selection)
    ensures |r.media| >= |videos| && r.media[..|videos|] == videos
  {
    var s := VideoScanCorrected(|videos|, files, durations, ids);
    assert (videos + s.made)[..|videos|] == videos;
    Selection(videos + s.made, s.errors)
  }

  /** The corrected handler never takes the list past three videos, however many are chosen at once. */
  lemma VideoSelectCorrectedBounded(videos: seq<MediaFile>, files: seq<File>, durations: File -> Option<real>,
                                    ids: nat -> string)
    requires |videos| <= RequiredVideos
    ensures |VideoSelectCorrected(videos, files, durations, ids).media| <= RequiredVideos
  {
  }

  /** When the list had room for them all, the corrected handler takes the same videos as the one written. */
  lemma {:induction false} VideoScanAgree(start: nat, files: seq<File>, durations: File -> Option<real>, ids: nat -> string)
    requires start + |files| <= RequiredVideos
    ensures VideoScanCorrected(start, files, durations, ids) == VideoScan(start, files, durations, ids)
  {
    if files != [] {
      VideoScanAgree(start, files[..|files| - 1], durations, ids);
    }
  }

  // ---- PDF ----

  /** The PDF slot and error list after `handlePdfSelect`, given the first chosen file if any. */
  datatype PdfSelection = PdfSelection(pdf: Option<File>, errors: seq<string>)

  function PdfSelect(pdf: Option<File>, chosen: Option<File>): (r: PdfSelection)
    ensures r.pdf != pdf ==> chosen.Some? && r.pdf == chosen
    ensures r.pdf.Some? && r.pdf != pdf ==>
              r.pdf.value.mimeType == "application/pdf" && !OverMB(r.pdf.value, MaxPdfSizeMB)
    ensures chosen.Some? && chosen.value.mimeType == "application/pdf" && !OverMB(chosen.value, MaxPdfSizeMB)
            <==> chosen.Some? && r == PdfSelection(chosen, [])
    ensures |r.errors| <= 1
  {
    match chosen
    case None => PdfSelection(pdf, [])
    case Some(f) =>
      if f.mimeType != "application/pdf" then PdfSelection(pdf, ["Only PDF files allowed."])
      else if OverMB(f, MaxPdfSizeMB) then PdfSelection(pdf, ["PDF exceeds 10MB."])
      else PdfSelection(chosen, [])
  }

  // ---- Removing ----

  predicate NotId(id: string, m: MediaFile) {
    m.id != id
  }

  /** `removeImage` / `removeVideo`: every entry with the id goes, the rest stay in order. */
  function RemoveById(media: seq<MediaFile>, id: string): (r: seq<MediaFile>)
    ensures forall i :: 0 <= i < |r| ==> r[i].id != id
    ensures forall m: MediaFile :: m.id != id ==> multiset(r)[m] == multiset(media)[m]
  {
    forall m: MediaFile | m.id != id ensures multiset(Lists.Filter(media, x => NotId(id, x)))[m] == multiset(media)[m] {
      Lists.FilterMultiset(media, x => NotId(id, x), m);
    }
    Lists.Filter(media, x => NotId(id, x))
  }

  /** Removing keeps the order of what remains: removing from a concatenation removes from each part. */
  lemma RemoveKeepsOrder(a: seq<MediaFile>, b: seq<MediaFile>, id: string)
    ensures RemoveById(a + b, id) == RemoveById(a, id) + RemoveById(b, id)
  {
    Lists.FilterAppend(a, b, x => NotId(id, x));
  }

  /** Removing an id no entry has changes nothing. */
  lemma RemoveUnknownId(media: seq<MediaFile>, id: string)
    requires forall i :: 0 <= i < |media| ==> media[i].id != id
    ensures RemoveById(media, id) == media
  {
    Lists.FilterKeepsAll(media, x => NotId(id, x));
  }

  // ---- Validation and submit ----

  const TitleMessage: string := "Title is required (min 4 chars)."
  const DescriptionMessage: string := "Description is required (min 10 chars)."
  const CategoryMessage: string := "Category must be selected."
  const PriceMessage: string := "Price must be positive."
  const ImagesMessage: string := "Exactly 4 images are required."
  const VideosMessage: string := "Exactly 3 videos (≤ 60s) are required."

  /** The price test: non-empty text whose `Number` value (None for NaN) is positive. */
  predicate PriceOk(price: string, toNumber: string -> Option<real>) {
    price != "" && toNumber(price).Some? && toNumber(price).value > 0.0
  }

  /** Every condition the page demands before it submits. */
  predicate Ready(d: Details, images: nat, videos: nat, toNumber: string -> Option<real>) {
    |Trim(d.title)| >= 4 && |Trim(d.description)| >= 10 && d.category != ""
    && PriceOk(d.price, toNumber) && images == RequiredImages && videos == RequiredVideos
  }

  function Check(fails: bool, message: string): seq<string> {
    if fails then [message] else []
  }

  /** `collectErrors`: one message per failed condition, in a fixed order. */
  function Problems(d: Details, images: nat, videos: nat, toNumber: string -> Option<real>): seq<string> {
    Check(|Trim(d.title)| < 4, TitleMessage)
    + Check(|Trim(d.description)| < 10, DescriptionMessage)
    + Check(d.category == "", CategoryMessage)
    + Check(!PriceOk(d.price, toNumber), PriceMessage)
    + Check(images != RequiredImages, ImagesMessage)
    + Check(videos != RequiredVideos, VideosMessage)
  }

  /**
   * The page submits exactly when every condition holds, and a message
   * appears exactly when its own condition fails.
   */
  lemma ProblemsExact(d: Details, images: nat, videos: nat, toNumber: string -> Option<real>)
    ensures var r := Problems(d, images, videos, toNumber);
            (r == [] <==> Ready(d, images, videos, toNumber)) && |r| <= 6
    ensures var r := Problems(d, images, videos, toNumber);
            (TitleMessage in r <==> |Trim(d.title)| < 4)
            && (DescriptionMessage in r <==> |Trim(d.description)| < 10)
            && (CategoryMessage in r <==> d.category == "")
            && (PriceMessage in r <==> !PriceOk(d.price, toNumber))
            && (ImagesMessage in r <==> images != RequiredImages)
            && (VideosMessage in r <==> videos != RequiredVideos)
  {
    SixChecks(|Trim(d.title)| < 4, |Trim(d.description)| < 10, d.category == "",
              !PriceOk(d.price, toNumber), images != RequiredImages, videos != RequiredVideos);
  }

  /** Each of the six messages is present exactly when its own check fails; the messages differ in length. */
  lemma SixChecks(t: bool, de: bool, c: bool, p: bool, i: bool, v: bool)
    ensures var r := Check(t, TitleMessage) + Check(de, DescriptionMessage) + Check(c, CategoryMessage)
                     + Check(p, PriceMessage) + Check(i, ImagesMessage) + Check(v, VideosMessage);
            (r == [] <==> !t && !de && !c && !p && !i && !v) && |r| <= 6
            && (TitleMessage in r <==> t) && (DescriptionMessage in r <==> de) && (CategoryMessage in r <==> c)
            && (PriceMessage in r <==> p) && (ImagesMessage in r <==> i) && (VideosMessage in r <==> v)
  {
    assert |TitleMessage| == 32 && |DescriptionMessage| == 39 && |CategoryMessage| == 26;
    assert |PriceMessage| == 23 && |ImagesMessage| == 30 && |VideosMessage| == 38;
  }

  /** The form of one upload request: a lone "file" field. */
  function FileForm(f: File): seq<FormEntry> {
    [FormEntry("file", FieldFile(f))]
  }

  /** The requests the submit sends, one per image, video and the PDF, each without a product header. */
  function Requests(images: seq<MediaFile>, videos: seq<MediaFile>, pdf: Option<File>): (r: seq<seq<FormEntry>>)
    ensures |r| == |images| + |videos| + (if pdf.Some? then 1 else 0)
  {
    var sent := FilesOf(images) + FilesOf(videos) + (if pdf.Some? then [pdf.value] else []);
    seq(|sent|, i requires 0 <= i < |sent| => FileForm(sent[i]))
  }

  /**
   * None of the typed details reaches the server: each request creates a
   * product of its own, with exactly the defaults an empty form gives.
   */
  lemma SubmitSendsNoDetails(images: seq<MediaFile>, videos: seq<MediaFile>, pdf: Option<File>,
                             sellerKey: string, newId: string, parseFloat: string -> Option<real>)
    ensures forall form: seq<FormEntry> :: form in Requests(images, videos, pdf) ==>
              |form| == 1 && form[0].name == "file" && form[0].value.FieldFile?
              && NewProduct(sellerKey, form, newId, parseFloat) == NewProduct(sellerKey, [], newId, parseFloat)
  {
    forall form: seq<FormEntry> | form in Requests(images, videos, pdf)
      ensures |form| == 1 && form[0].name == "file" && form[0].value.FieldFile?
              && NewProduct(sellerKey, form, newId, parseFloat) == NewProduct(sellerKey, [], newId, parseFloat)
    {
      var sent := FilesOf(images) + FilesOf(videos) + (if pdf.Some? then [pdf.value] else []);
      var rs := Requests(images, videos, pdf);
      var i :| 0 <= i < |rs| && rs[i] == form;
      assert form == FileForm(sent[i]);
      OnlyFileField(form);
    }
  }

  /** A form holding only a "file" field reads every product detail as its fallback. */
  lemma OnlyFileField(form: seq<FormEntry>)
    requires |form| == 1 && form[0].name == "file"
    ensures forall name, fallback :: name != "file" ==> FormText(form, name, fallback) == fallback
  {
    forall name, fallback | name != "file" ensures FormText(form, name, fallback) == fallback {
      assert !Named(name, form[0]);
    }
  }

  /** The page. */
  class UploadForm {
    var details: Details
    var images: seq<MediaFile>
    var videos: seq<MediaFile>
    var pdf: Option<File>
    var errors: seq<string>
    var success: Option<string>
    var submitting: bool

    constructor()
      ensures details == InitialDetails && images == [] && videos == [] && pdf.None?
      ensures errors == [] && success.None? && !submitting
    {
      details := InitialDetails;
      images := [];
      videos := [];
      pdf := None;
      errors := [];
      success := None;
      submitting := false;
    }

    /** The page keeps at most four images. */
    predicate Valid()
      reads this
    {
      |images| <= RequiredImages
    }

    method HandleImageSelect(files: seq<File>, ids: nat -> string)
      modifies this
      ensures Selection(images, errors) == ImageSelect(old(images), files, ids)
      ensures old(Valid()) ==> Valid()
      ensures details == old(details) && videos == old(videos) && pdf == old(pdf)
      ensures success == old(success) && submitting == old(submitting)
    {
      errors := [];
      if files == [] {
        return;
      }
      var made: seq<MediaFile> := [];
      var i := 0;
      while i < |files|
        invariant 0 <= i <= |files|
        invariant Scan(made, errors) == ImageScan(files[..i], ids)
        invariant images == old(images) && details == old(details) && videos == old(videos) && pdf == old(pdf)
        invariant success == old(success) && submitting == old(submitting)
      {
        assert files[..i + 1][..i] == files[..i];
        match ImageProblem(files[i]) {
          case Some(e) =>
            errors := errors + [e];
          case None =>
            made := made + [Make(files[i], ImageType, ids(i), None)];
        }
        i := i + 1;
      }
      assert files[..i] == files;
      if |images| + |made| > RequiredImages {
        errors := errors + [TooManyImages];
        return;
      }
      images := images + made;
    }

    method HandleVideoSelect(files: seq<File>, durations: File -> Option<real>, ids: nat -> string)
      modifies this
      ensures Selection(videos, errors) == VideoSelect(old(videos), files, durations, ids)
      ensures details == old(details) && images == old(images) && pdf == old(pdf)
      ensures success == old(success) && submitting == old(submitting)
    {
      errors := [];
      var stale := |videos|;
      var i := 0;
      while i < |files|
        invariant 0 <= i <= |files|
        invariant stale <= |videos| && videos[..stale] == old(videos)
        invariant Scan(videos[stale..], errors) == VideoScan(stale, files[..i], durations, ids)
        invariant images == old(images) && details == old(details) && pdf == old(pdf)
        invariant success == old(success) && submitting == old(submitting)
      {
        assert files[..i + 1][..i] == files[..i];
        match VideoProblem(files[i], durations(files[i]), stale) {
          case Some(e) =>
            errors := errors + [e];
          case None =>
            var v := Make(files[i], VideoType, ids(i), durations(files[i]));
            assert (videos + [v])[stale..] == videos[stale..] + [v];
            assert (videos + [v])[..stale] == videos[..stale];
            videos := videos + [v];
        }
        i := i + 1;
      }
      assert files[..i] == files;
      assert videos == old(videos) + videos[stale..];
    }

    method HandlePdfSelect(chosen: Option<File>)
      modifies this
      ensures PdfSelection(pdf, errors) == PdfSelect(old(pdf), chosen)
      ensures details == old(details) && images == old(images) && videos == old(videos)
      ensures success == old(success) && submitting == old(submitting)
    {
      var r := PdfSelect(pdf, chosen);
      pdf := r.pdf;
      errors := r.errors;
    }

    method RemoveImage(id: string)
      modifies this
      ensures images == RemoveById(old(images), id)
      ensures old(Valid()) ==> Valid()
      ensures details == old(details) && videos == old(videos) && pdf == old(pdf) && errors == old(errors)
      ensures success == old(success) && submitting == old(submitting)
    {
      images := RemoveById(images, id);
    }

    method RemoveVideo(id: string)
      modifies this
      ensures videos == RemoveById(old(videos), id)
      ensures details == old(details) && images == old(images) && pdf == old(pdf) && errors == old(errors)
      ensures success == old(success) && submitting == old(submitting)
    {
      videos := RemoveById(videos, id);
    }

    /** `removePdf`: the PDF slot is emptied and nothing else changes. */
    method RemovePdf()
      modifies this
      ensures pdf.None?
      ensures details == old(details) && images == old(images) && videos == old(videos) && errors == old(errors)
      ensures success == old(success) && submitting == old(submitting)
    {
      pdf := None;
    }

    /** `collectErrors`, pushing onto a local list. */
    method CollectErrors(toNumber: string -> Option<real>) returns (errs: seq<string>)
      ensures errs == Problems(details, |images|, |videos|, toNumber)
    {
      var d := details;
      errs := [];
      if |Trim(d.title)| < 4 { errs := errs + [TitleMessage]; }
      assert errs == Check(|Trim(d.title)| < 4, TitleMessage);
      if |Trim(d.description)| < 10 { errs := errs + [DescriptionMessage]; }
      ghost var soFar := errs;
      assert soFar == Check(|Trim(d.title)| < 4, TitleMessage) + Check(|Trim(d.description)| < 10, DescriptionMessage);
      if d.category == "" { errs := errs + [CategoryMessage]; }
      assert errs == soFar + Check(d.category == "", CategoryMessage);
      soFar := errs;
      if !PriceOk(d.price, toNumber) { errs := errs + [PriceMessage]; }
      assert errs == soFar + Check(!PriceOk(d.price, toNumber), PriceMessage);
      soFar := errs;
      if |images| != RequiredImages { errs := errs + [ImagesMessage]; }
      assert errs == soFar + Check(|images| != RequiredImages, ImagesMessage);
      soFar := errs;
      if |videos| != RequiredVideos { errs := errs + [VideosMessage]; }
      assert errs == soFar + Check(|videos| != RequiredVideos, VideosMessage);
    }

    /**
     * `handleSubmit`: `failure` is the message of the error the requests
     * raised (None when all succeeded): the body of a refused request, or
     * "Upload failed" when that body is empty, or the network's own error.
     */
    method HandleSubmit(toNumber: string -> Option<real>, failure: Option<string>)
      returns (sent: seq<seq<FormEntry>>)
      modifies this
      ensures var problems := Problems(old(details), |old(images)|, |old(videos)|, toNumber);
              problems != [] ==>
                sent == [] && errors == problems && success.None?
                && details == old(details) && images == old(images) && videos == old(videos) && pdf == old(pdf)
                && submitting == old(submitting)
      ensures Ready(old(details), |old(images)|, |old(videos)|, toNumber) ==>
                sent == Requests(old(images), old(videos), old(pdf)) && !submitting
      ensures Ready(old(details), |old(images)|, |old(videos)|, toNumber) && failure.None? ==>
                errors == [] && success == Some(SuccessMessage) && details == InitialDetails
                && images == [] && videos == [] && pdf.None?
      ensures Ready(old(details), |old(images)|, |old(videos)|, toNumber) && failure.Some? ==>
                errors == [if failure.value == "" then "Network error." else failure.value]
                && success.None? && details == old(details)
                && images == old(images) && videos == old(videos) && pdf == old(pdf)
    {
      errors := [];
      success := None;
      var problems := CollectErrors(toNumber);
      if problems != [] {
        errors := problems;
        sent := [];
        return;
      }
      submitting := true;
      sent := Requests(images, videos, pdf);
      if failure.None? {
        success := Some(SuccessMessage);
        details := InitialDetails;
        images := [];
        videos := [];
        pdf := None;
      } else {
        errors := [if failure.value == "" then "Network error." else failure.value];
      }
      submitting := false;
    }
  }
}
