/** The pure rules shared by the upload components (`ImageUpload.tsx`,
    `VideoUpload.tsx`, `FileUpload.tsx`): file checks, the title derived from the
    file name, the form's field update, the progress percentage and the messages
    for upload failures. */
module UploadRules {
  import opened Options
  import opened Text
  import opened Json

  datatype MediaKind = ImageKind | VideoKind

  /** A picked file: its name, MIME type and size in bytes. */
  datatype File = File(name: string, mimeType: string, size: nat)

  const MiB: nat := 1024 * 1024
  const ImageSizeLimit: nat := 100 * MiB
  const VideoSizeLimit: nat := 500 * MiB

  const ImageTypeMessage := "Invalid file type. Please upload an image file."
  const VideoTypeMessage := "Invalid file type. Please upload a video file."
  const ImageSizeMessage := "File size must be less than 100 MB."
  const VideoSizeMessage := "File size must be less than 500 MB."

  datatype Verdict = Accepted | Rejected(message: string)

  /** `validateFile` of the image modal: the type check runs first, then the size cap. */
  function ValidateImageFile(f: File): (v: Verdict)
    ensures v == Accepted <==> StartsWith(f.mimeType, "image/") && f.size <= 104857600
    ensures !StartsWith(f.mimeType, "image/") ==> v == Rejected(ImageTypeMessage)
    ensures StartsWith(f.mimeType, "image/") && f.size > 104857600 ==> v == Rejected(ImageSizeMessage)
  {
    if !StartsWith(f.mimeType, "image/") then Rejected(ImageTypeMessage)
    else if f.size > ImageSizeLimit then Rejected(ImageSizeMessage)
    else Accepted
  }

  /** `validateFile` of the video modal. */
  function ValidateVideoFile(f: File): (v: Verdict)
    ensures v == Accepted <==> StartsWith(f.mimeType, "video/") && f.size <= 524288000
    ensures !StartsWith(f.mimeType, "video/") ==> v == Rejected(VideoTypeMessage)
    ensures StartsWith(f.mimeType, "video/") && f.size > 524288000 ==> v == Rejected(VideoSizeMessage)
  {
    if !StartsWith(f.mimeType, "video/") then Rejected(VideoTypeMessage)
    else if f.size > VideoSizeLimit then Rejected(VideoSizeMessage)
    else Accepted
  }

  /** The modal's check for its own kind. */
  function ValidateForModal(kind: MediaKind, f: File): Verdict
  {
    match kind
    case ImageKind => ValidateImageFile(f)
    case VideoKind => ValidateVideoFile(f)
  }

  /** `validateFile` of `FileUpload`: the type is checked only for the declared kind,
      and the cap is 100 MiB for both kinds. */
  function ValidateForFileType(fileType: Option<MediaKind>, f: File): (v: Verdict)
    ensures fileType.None? ==> (v == Accepted <==> f.size <= 104857600)
    ensures fileType == Some(VideoKind) ==> (v == Accepted <==> StartsWith(f.mimeType, "video/") && f.size <= 104857600)
    ensures fileType == Some(ImageKind) ==> (v == Accepted <==> StartsWith(f.mimeType, "image/") && f.size <= 104857600)
    ensures fileType == Some(VideoKind) && !StartsWith(f.mimeType, "video/") ==> v == Rejected(VideoTypeMessage)
    ensures fileType == Some(ImageKind) && !StartsWith(f.mimeType, "image/") ==> v == Rejected(ImageTypeMessage)
    ensures v.Rejected? && v.message != VideoTypeMessage && v.message != ImageTypeMessage ==> v.message == ImageSizeMessage
  {
    if fileType == Some(VideoKind) && !StartsWith(f.mimeType, "video/") then Rejected(VideoTypeMessage)
    else if fileType == Some(ImageKind) && !StartsWith(f.mimeType, "image/") then Rejected(ImageTypeMessage)
    else if f.size > ImageSizeLimit then Rejected(ImageSizeMessage)
    else Accepted
  }

  /** The caps at their boundaries, and the two components disagreeing on videos:
      a 200 MiB video passes the video modal but not `FileUpload`. */
  lemma SizeBoundaries()
    ensures ValidateImageFile(File("a.png", "image/png", 104857600)) == Accepted
    ensures ValidateImageFile(File("a.png", "image/png", 104857601)) == Rejected(ImageSizeMessage)
    ensures ValidateVideoFile(File("a.mp4", "video/mp4", 524288000)) == Accepted
    ensures ValidateVideoFile(File("a.mp4", "video/mp4", 200 * MiB)) == Accepted
    ensures ValidateForFileType(Some(VideoKind), File("a.mp4", "video/mp4", 200 * MiB)) == Rejected(ImageSizeMessage)
  {
    assert StartsWith("image/png", "image/");
    assert StartsWith("video/mp4", "video/");
  }

  /** For images `FileUpload` and the image modal give the same verdict on every
      file, message included. */
  lemma FileUploadAgreesOnImages(f: File)
    ensures ValidateForFileType(Some(ImageKind), f) == ValidateImageFile(f)
  {
  }

  /** For videos `FileUpload` is the stricter check: every video it accepts the video
      modal accepts too. */
  lemma FileUploadIsStricterOnVideos(f: File)
    ensures ValidateForFileType(Some(VideoKind), f) == Accepted ==> ValidateVideoFile(f) == Accepted
  {
  }

  // ---- Title from the file name: `name.replace(/\.[^/.]+$/, "")` ----

  /** `i` is where the pattern matches: a dot followed by at least one character, none
      of them a dot or a slash, up to the end of the name. */
  predicate ExtensionAt(s: string, i: int)
  {
    0 <= i < |s| - 1 && s[i] == '.' && forall k :: i < k < |s| ==> s[k] != '.' && s[k] != '/'
  }

  /** The pattern matches at most at one place (the last dot). */
  lemma ExtensionAtUnique(s: string, i: int, j: int)
    requires ExtensionAt(s, i) && ExtensionAt(s, j)
    ensures i == j
  {
  }

  /** Scans back from `j` over characters that are neither dot nor slash. */
  function ScanBack(s: string, j: nat): (r: Option<nat>)
    requires j <= |s|
    requires forall k :: j <= k < |s| ==> s[k] != '.' && s[k] != '/'
    ensures r.Some? ==> ExtensionAt(s, r.value)
    ensures r.None? ==> forall i :: !ExtensionAt(s, i)
    decreases j
  {
    if j == 0 then None
    else if s[j - 1] == '.' then (if j - 1 < |s| - 1 then Some(j - 1) else None)
    else if s[j - 1] == '/' then None
    else ScanBack(s, j - 1)
  }

  /** The file name with one trailing `.ext` removed; a name the pattern does not
      match (no dot, a trailing dot, a slash after the last dot) is kept whole. */
  function StripExtension(name: string): (r: string)
    ensures forall i :: ExtensionAt(name, i) ==> r == name[..i]
    ensures (forall i :: !ExtensionAt(name, i)) ==> r == name
    ensures |r| <= |name| && r == name[..|r|]
  {
    match ScanBack(name, |name|)
    case Some(i) => name[..i]
    case None => name
  }

  /** Stripping undoes appending one extension. */
  lemma StripExtensionRoundTrip(base: string, ext: string)
    requires |ext| > 0 && '.' !in ext && '/' !in ext
    ensures StripExtension(base + "." + ext) == base
  {
    var s := base + "." + ext;
    assert ExtensionAt(s, |base|) by {
      forall k | |base| < k < |s|
        ensures s[k] != '.' && s[k] != '/'
      {
        assert s[k] == ext[k - |base| - 1];
      }
    }
  }

  /** A name with no dot, or ending in a dot, is kept as it is. */
  lemma NamesWithoutExtensionAreKept(name: string)
    requires '.' !in name || (|name| > 0 && name[|name| - 1] == '.')
    ensures StripExtension(name) == name
  {
  }

  /** Only one extension goes: "clip.tar.gz" becomes "clip.tar". */
  lemma OnlyOneExtensionIsStripped()
    ensures StripExtension("clip.tar.gz") == "clip.tar"
  {
    StripExtensionRoundTrip("clip.tar", "gz");
    assert "clip.tar" + "." + "gz" == "clip.tar.gz";
  }

  // ---- Form field update: `handleInputChange` ----

  datatype FieldKind = Checkbox | NumberField | OtherField

  /** A change event: the field's name, its kind, its text, its checked state and its
      numeric reading (`Number(value)`, taken as given). */
  datatype InputEvent = InputEvent(name: string, kind: FieldKind, text: string, checked: bool, number: int)

  function InputValue(e: InputEvent): Value
  {
    match e.kind
    case Checkbox => Bool(e.checked)
    case NumberField => Num(e.number)
    case OtherField => Str(e.text)
  }

  /** `name.split(".")[0]` and `name.split(".")[1]` for a dotted name. */
  function Parent(name: string): string { BeforeFirst(name, '.') }
  function Child(name: string): string { BeforeFirst(AfterFirst(name, '.'), '.') }

  /** Dotted names update one sub-field of the parent object, copying its other
      sub-fields; other names replace one top-level field. */
  function ApplyInput(form: Object, e: InputEvent): (r: Object)
    ensures '.' in e.name ==>
      && r.Keys == form.Keys + {Parent(e.name)}
      && (forall k :: k in form && k != Parent(e.name) ==> r[k] == form[k])
      && r[Parent(e.name)].Obj?
      && r[Parent(e.name)].fields.Keys == Spread(Get(form, Parent(e.name))).Keys + {Child(e.name)}
      && r[Parent(e.name)].fields[Child(e.name)] == InputValue(e)
      && (forall k :: k in Spread(Get(form, Parent(e.name))) && k != Child(e.name) ==>
            r[Parent(e.name)].fields[k] == Spread(Get(form, Parent(e.name)))[k])
    ensures '.' !in e.name ==>
      && r.Keys == form.Keys + {e.name}
      && r[e.name] == InputValue(e)
      && (forall k :: k in form && k != e.name ==> r[k] == form[k])
  {
    var v := InputValue(e);
    if '.' in e.name then
      var parent := Parent(e.name);
      form[parent := Obj(Spread(Get(form, parent))[Child(e.name) := v])]
    else
      form[e.name := v]
  }

  /** A field update never removes a field. */
  lemma ApplyInputKeepsKeys(form: Object, e: InputEvent)
    ensures form.Keys <= ApplyInput(form, e).Keys
  {
  }

  /** A name "p.c" with dot-free parts splits into parent p and child c. */
  lemma DottedNameSplits(p: string, c: string)
    requires '.' !in p && '.' !in c
    ensures '.' in p + "." + c
    ensures Parent(p + "." + c) == p && Child(p + "." + c) == c
  {
    SplitJoin(p, '.', c);
  }

  /** Updating "p.c" sets sub-field c of p, keeping p's other sub-fields and every
      other field. */
  lemma DottedUpdate(form: Object, p: string, c: string, e: InputEvent)
    requires '.' !in p && '.' !in c && e.name == p + "." + c
    ensures ApplyInput(form, e) == form[p := Obj(Spread(Get(form, p))[c := InputValue(e)])]
  {
    DottedNameSplits(p, c);
  }

  // ---- Progress: `Math.round((loaded / total) * 100)` ----

  /** An `onProgress` event. */
  datatype ProgressEvent = ProgressEvent(lengthComputable: bool, loaded: nat, total: nat)

  /** `loaded / total` as a percentage, rounded half up: the `p` with
      p - 1/2 <= 100 * loaded / total < p + 1/2. */
  function Percent(loaded: nat, total: nat): (p: nat)
    requires total > 0
    ensures p * (2 * total) <= 200 * loaded + total < (p + 1) * (2 * total)
    ensures loaded <= total ==> p <= 100
    ensures loaded == total ==> p == 100
    ensures loaded == 0 ==> p == 0
  {
    DivisionFacts(200 * loaded + total, 2 * total);
    RoundingBounds(loaded, total, (200 * loaded + total) / (2 * total));
    (200 * loaded + total) / (2 * total)
  }

  lemma DivisionFacts(n: nat, d: nat)
    requires d > 0
    ensures (n / d) * d <= n < (n / d + 1) * d
  {
  }

  lemma RoundingBounds(loaded: nat, total: nat, p: nat)
    requires total > 0
    requires p * (2 * total) <= 200 * loaded + total < (p + 1) * (2 * total)
    ensures loaded <= total ==> p <= 100
    ensures loaded == total ==> p == 100
    ensures loaded == 0 ==> p == 0
  {
    var t := 2 * total;
    if loaded <= total && p >= 101 {
      MulMonotone(101, p, t);
      assert false;
    }
    if loaded == total && p <= 99 {
      MulMonotone(p + 1, 100, t);
      assert false;
    }
    if loaded == 0 && p >= 1 {
      MulMonotone(1, p, t);
      assert false;
    }
  }

  lemma MulMonotone(a: nat, b: nat, c: nat)
    requires a <= b
    ensures a * c <= b * c
  {
  }

  /** More bytes sent never shows a smaller percentage. */
  lemma PercentMonotone(l1: nat, l2: nat, total: nat)
    requires total > 0 && l1 <= l2
    ensures Percent(l1, total) <= Percent(l2, total)
  {
  }

  /** The update an event triggers: only a computable length updates the bar. */
  function ProgressOf(e: ProgressEvent): (p: Option<nat>)
    ensures p.Some? <==> e.lengthComputable && e.total > 0
    ensures p.Some? && e.loaded <= e.total ==> p.value <= 100
  {
    if e.lengthComputable && e.total > 0 then Some(Percent(e.loaded, e.total)) else None
  }

  /** The percentages a run of events shows, in order. */
  function Percents(events: seq<ProgressEvent>): (r: seq<nat>)
    ensures |r| <= |events|
    ensures (forall i :: 0 <= i < |events| ==> events[i].loaded <= events[i].total) ==>
              forall i :: 0 <= i < |r| ==> r[i] <= 100
  {
    if |events| == 0 then []
    else
      var rest := Percents(events[..|events| - 1]);
      match ProgressOf(events[|events| - 1])
      case Some(p) => rest + [p]
      case None => rest
  }

  /** Events of one upload (one total, growing `loaded`) show a non-decreasing percentage. */
  predicate OneUpload(events: seq<ProgressEvent>)
  {
    && (forall i, j :: 0 <= i < |events| && 0 <= j < |events| ==> events[i].total == events[j].total)
    && (forall i, j :: 0 <= i < j < |events| ==> events[i].loaded <= events[j].loaded)
  }

  lemma {:induction false} PercentsNonDecreasing(events: seq<ProgressEvent>)
    requires OneUpload(events)
    ensures forall i, j :: 0 <= i < j < |Percents(events)| ==> Percents(events)[i] <= Percents(events)[j]
    ensures |Percents(events)| > 0 ==>
              exists k :: 0 <= k < |events| && events[k].lengthComputable && events[k].total > 0
                          && Percents(events)[|Percents(events)| - 1] == Percent(events[k].loaded, events[k].total)
  {
    if |events| > 0 {
      var init := events[..|events| - 1];
      var last := events[|events| - 1];
      assert OneUpload(init);
      PercentsNonDecreasing(init);
      var rest := Percents(init);
      if ProgressOf(last).Some? && |rest| > 0 {
        var k :| 0 <= k < |init| && init[k].lengthComputable && init[k].total > 0
                 && rest[|rest| - 1] == Percent(init[k].loaded, init[k].total);
        assert init[k] == events[k];
        PercentMonotone(init[k].loaded, last.loaded, last.total);
      }
    }
  }

  // ---- Upload failures ----

  /** What the `catch` receives: the four error classes of the upload SDK, another
      `Error` with its message, or a thrown value that is not an `Error`. */
  datatype Thrown =
    | SdkAbort | SdkInvalidRequest | SdkServer | SdkNetwork
    | ErrorWithMessage(message: string)
    | NonErrorValue

  predicate IsSdkError(t: Thrown)
  {
    t.SdkAbort? || t.SdkInvalidRequest? || t.SdkServer? || t.SdkNetwork?
  }

  const GenericUploadMessage := "Upload failed. Please try again."

  /** The message the modals show for a failure. */
  function UploadErrorMessage(t: Thrown): (m: string)
    ensures t.ErrorWithMessage? ==> m == t.message
    ensures t.NonErrorValue? ==> m == GenericUploadMessage
    ensures IsSdkError(t) ==> |m| > 0 && m != GenericUploadMessage
  {
    match t
    case SdkAbort => "Upload was cancelled."
    case SdkInvalidRequest => "Invalid request. Please check your file and try again."
    case SdkServer => "Server error. Please try again later."
    case SdkNetwork => "Network error. Please check your connection and try again."
    case ErrorWithMessage(msg) => msg
    case NonErrorValue => GenericUploadMessage
  }

  /** The four SDK failures are told apart. */
  lemma SdkMessagesAreDistinct(a: Thrown, b: Thrown)
    requires IsSdkError(a) && IsSdkError(b) && a != b
    ensures UploadErrorMessage(a) != UploadErrorMessage(b)
  {
  }
}
