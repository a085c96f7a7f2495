/** The upload coordination of the two modals (`ImageUpload.tsx`, `VideoUpload.tsx`)
    and of the bare picker (`FileUpload.tsx`). The credential request, the upload
    SDK and the persistence POST are external: each is given as the outcome it
    produces, and the methods return the calls they make, in order. */
module UploadFlow {
  import opened Options
  import opened Json
  import opened UploadRules
  import opened Text
  import ImageSchema
  import ImageRoute
  import MediaStore

  datatype Credentials = Credentials(token: string, signature: string, expire: int)

  /** The credential endpoint's answer: the parameters nested under
      `authenticationParameters` and/or flat at the top level, or a failure of the
      request or of reading its JSON. */
  datatype CredentialReply =
    | CredentialBody(nested: Option<Credentials>, flat: Option<Credentials>)
    | CredentialFailure(thrown: Thrown)

  datatype UploadResult = UploadResult(url: string, fileId: string, filePath: string)
  datatype UploadOutcome = Uploaded(result: UploadResult) | UploadFailed(thrown: Thrown)

  /** One upload call as the SDK plays it: the progress events it reports, then how it ends. */
  datatype UploadReply = UploadReply(events: seq<ProgressEvent>, outcome: UploadOutcome)

  /** The persistence POST: an ok response, a non-ok response, or a thrown failure. */
  datatype PersistReply = PersistOk | PersistNotOk | PersistFailed(thrown: Thrown)

  /** What the flows do, in order: read a video's duration, request credentials, upload,
      show or report a progress value, save the record. */
  datatype Call =
    | ReadDuration
    | FetchCredentials
    | UploadFile(fileName: string, folder: string, credentials: Option<Credentials>)
    | ShowProgress(percent: nat)
    | Persist(endpoint: string, payload: Object)

  function Folder(kind: MediaKind): string
  {
    match kind
    case ImageKind => "images"
    case VideoKind => "videos"
  }

  function Endpoint(kind: MediaKind): string
  {
    match kind
    case ImageKind => "/api/image"
    case VideoKind => "/api/video"
  }

  function SaveFailedMessage(kind: MediaKind): string
  {
    match kind
    case ImageKind => "Failed to save image to database"
    case VideoKind => "Failed to save video to database"
  }

  /** Destructuring a missing `authenticationParameters` throws a TypeError; its text
      is the JavaScript engine's, this is a stand-in for it. */
  const MissingParametersMessage := "Cannot destructure 'auth.authenticationParameters' as it is undefined."

  /** The progress values a run of events produces, one call each. */
  function Shown(ps: seq<nat>): (r: seq<Call>)
    ensures |r| == |ps|
    ensures forall i :: 0 <= i < |r| ==> r[i] == ShowProgress(ps[i])
  {
    seq(|ps|, i requires 0 <= i < |ps| => ShowProgress(ps[i]))
  }

  /** Replays the SDK's progress events: each computable one becomes a progress value
      (shown only when `show` holds); the last value is returned. */
  method ReplayProgress(events: seq<ProgressEvent>, show: bool) returns (shown: seq<Call>, last: Option<nat>)
    ensures show ==> shown == Shown(Percents(events))
    ensures !show ==> shown == []
    ensures last.None? <==> |Percents(events)| == 0
    ensures last.Some? ==> last.value == Percents(events)[|Percents(events)| - 1]
  {
    shown := [];
    last := None;
    ghost var ps: seq<nat> := [];
    var i := 0;
    while i < |events|
      invariant 0 <= i <= |events|
      invariant ps == Percents(events[..i])
      invariant show ==> shown == Shown(ps)
      invariant !show ==> shown == []
      invariant last.None? <==> |ps| == 0
      invariant last.Some? ==> last.value == ps[|ps| - 1]
    {
      PercentsStep(events, i);
      var p := ProgressOf(events[i]);
      if p.Some? {
        ps := ps + [p.value];
        last := p;
        if show {
          shown := shown + [ShowProgress(p.value)];
        }
      }
      i := i + 1;
    }
    assert events[..i] == events;
  }

  /** One more event adds its percent, if it has one. */
  lemma PercentsStep(events: seq<ProgressEvent>, i: nat)
    requires i < |events|
    ensures Percents(events[..i + 1]) == Percents(events[..i]) + (match ProgressOf(events[i]) case Some(p) => [p] case None => [])
  {
    assert events[..i + 1][..i] == events[..i];
  }

  // ---- The two modals ----

  /** A modal's state: the picked file, its preview URL, the uploading flag, the
      progress bar, the error line, the form and (videos) the measured duration. */
  datatype Modal = Modal(
    selected: Option<File>,
    preview: Option<string>,
    uploading: bool,
    progress: nat,
    error: Option<string>,
    form: Object,
    duration: nat)

  const InitialImageForm: Object := map[
    "title" := Str(""), "description" := Str(""), "userEmail" := Str(""), "alt" := Str(""),
    "format" := Str("webp"), "imageUrl" := Str(""),
    "transformations" := Obj(map["width" := Num(1080), "height" := Num(1080), "crop" := Bool(false),
                                 "fit" := Str("cover"), "quality" := Num(80)])]

  const InitialVideoForm: Object := map[
    "title" := Str(""), "description" := Str(""), "userEmail" := Str(""), "videoUrl" := Str(""),
    "thumbnailUrl" := Str(""), "duration" := Num(0), "controls" := Bool(true),
    "transformations" := Obj(map["width" := Num(1920), "height" := Num(1080), "quality" := Num(100)])]

  function InitialModal(kind: MediaKind): Modal
  {
    Modal(None, None, false, 0, None, if kind == ImageKind then InitialImageForm else InitialVideoForm, 0)
  }

  /** `handleFileSelect`: a rejected file only sets the error; an accepted one is
      selected, previewed, clears the error and names the form after itself. */
  function SelectFile(kind: MediaKind, m: Modal, f: File, objectUrl: string): (r: Modal)
    ensures ValidateForModal(kind, f).Rejected? ==>
      && r.selected == m.selected && r.form == m.form && r.preview == m.preview
      && r.error == Some(ValidateForModal(kind, f).message)
    ensures ValidateForModal(kind, f) == Accepted ==>
      && r.selected == Some(f) && r.preview == Some(objectUrl) && r.error.None?
      && r.form.Keys == m.form.Keys + {"title"}
      && r.form["title"] == Str(StripExtension(f.name))
      && (forall k :: k in m.form && k != "title" ==> r.form[k] == m.form[k])
    ensures r.uploading == m.uploading && r.progress == m.progress && r.duration == m.duration
  {
    match ValidateForModal(kind, f)
    case Rejected(msg) => m.(error := Some(msg))
    case Accepted =>
      m.(selected := Some(f), error := None, preview := Some(objectUrl),
         form := m.form["title" := Str(StripExtension(f.name))])
  }

  /** The preview's remove button: no file, no preview, no error; the video modal also
      forgets the measured duration. */
  function RemoveSelection(kind: MediaKind, m: Modal): (r: Modal)
    ensures r.selected.None? && r.preview.None? && r.error.None?
    ensures r.duration == (if kind == VideoKind then 0 else m.duration)
    ensures r.form == m.form && r.uploading == m.uploading && r.progress == m.progress
  {
    match kind
    case ImageKind => m.(selected := None, preview := None, error := None)
    case VideoKind => m.(selected := None, preview := None, duration := 0, error := None)
  }

  /** The video modal's metadata callback: it records the duration and nothing else. */
  function DurationMeasured(m: Modal, seconds: nat): (r: Modal)
    ensures r.duration == seconds
    ensures r.selected == m.selected && r.preview == m.preview && r.error == m.error && r.form == m.form
    ensures r.uploading == m.uploading && r.progress == m.progress
  {
    m.(duration := seconds)
  }

  /** The duration a video modal saves is the one last measured, whatever the form says. */
  lemma SavedDurationIsMeasured(m: Modal, seconds: nat, res: UploadResult)
    ensures Get(Payload(VideoKind, DurationMeasured(m, seconds).form, DurationMeasured(m, seconds).duration, res), "duration")
            == Some(Num(seconds))
  {
  }

  const ImagePayloadFields: set<string> := {"title", "description", "userEmail", "alt", "format", "transformations"}
  const VideoPayloadFields: set<string> := {"title", "description", "userEmail", "controls", "transformations"}
  const ThumbnailSuffix := "/ik-thumbnail.jpg"

  /** The body of the persistence POST: the form's fields, the uploaded file's URL and
      ids and, for a video, the derived thumbnail URL and the measured duration. */
  function Payload(kind: MediaKind, form: Object, duration: nat, res: UploadResult): (p: Object)
    ensures Get(p, "imagekitFileId") == Some(Str(res.fileId)) && Get(p, "imagekitFilePath") == Some(Str(res.filePath))
    ensures kind == ImageKind ==>
      && p.Keys == (form.Keys * ImagePayloadFields) + {"imageUrl", "imagekitFileId", "imagekitFilePath"}
      && p["imageUrl"] == Str(res.url)
      && (forall k :: k in form && k in ImagePayloadFields ==> p[k] == form[k])
    ensures kind == VideoKind ==>
      && p.Keys == (form.Keys * VideoPayloadFields) + {"videoUrl", "thumbnailUrl", "duration", "imagekitFileId", "imagekitFilePath"}
      && p["videoUrl"] == Str(res.url)
      && p["thumbnailUrl"] == Str(res.url + ThumbnailSuffix)
      && p["duration"] == Num(duration)
      && (forall k :: k in form && k in VideoPayloadFields ==> p[k] == form[k])
  {
    var fields := if kind == ImageKind then ImagePayloadFields else VideoPayloadFields;
    var extra := PayloadExtra(kind, duration, res);
    PickThenAdd(form, fields, extra);
    Pick(form, fields) + extra
  }

  /** The payload's fields that do not come from the form. */
  function PayloadExtra(kind: MediaKind, duration: nat, res: UploadResult): (e: Object)
    ensures "imagekitFileId" in e && e["imagekitFileId"] == Str(res.fileId)
    ensures "imagekitFilePath" in e && e["imagekitFilePath"] == Str(res.filePath)
    ensures kind == ImageKind ==> e.Keys == {"imageUrl", "imagekitFileId", "imagekitFilePath"} && e["imageUrl"] == Str(res.url)
    ensures kind == VideoKind ==>
      && e.Keys == {"videoUrl", "thumbnailUrl", "duration", "imagekitFileId", "imagekitFilePath"}
      && e["videoUrl"] == Str(res.url)
      && e["thumbnailUrl"] == Str(res.url + ThumbnailSuffix)
      && e["duration"] == Num(duration)
  {
    match kind
    case ImageKind =>
      map["imageUrl" := Str(res.url), "imagekitFileId" := Str(res.fileId), "imagekitFilePath" := Str(res.filePath)]
    case VideoKind =>
      map["videoUrl" := Str(res.url), "thumbnailUrl" := Str(res.url + ThumbnailSuffix), "duration" := Num(duration),
          "imagekitFileId" := Str(res.fileId), "imagekitFilePath" := Str(res.filePath)]
  }

  /** Picking some of the form's fields and adding others that none of them shadow. */
  lemma PickThenAdd(form: Object, fields: set<string>, extra: Object)
    requires fields !! extra.Keys
    ensures var p := Pick(form, fields) + extra;
            && p.Keys == (form.Keys * fields) + extra.Keys
            && (forall k :: k in form && k in fields ==> p[k] == form[k])
            && (forall k :: k in extra ==> p[k] == extra[k])
  {
  }

  /** What `onUpload` receives (besides the file and the raw responses): the whole form
      with the URL and, for a video, the bare URL as thumbnail and the duration. */
  function Report(kind: MediaKind, form: Object, duration: nat, res: UploadResult): (r: Object)
    ensures r.Keys >= form.Keys
    ensures forall k :: k in form && k !in {"imageUrl", "videoUrl", "thumbnailUrl", "duration"} ==> r[k] == form[k]
    ensures kind == ImageKind ==> Get(r, "imageUrl") == Some(Str(res.url))
    ensures kind == VideoKind ==>
      && Get(r, "videoUrl") == Some(Str(res.url)) && Get(r, "thumbnailUrl") == Some(Str(res.url))
      && Get(r, "duration") == Some(Num(duration))
  {
    match kind
    case ImageKind => form + map["imageUrl" := Str(res.url)]
    case VideoKind => form + map["videoUrl" := Str(res.url), "thumbnailUrl" := Str(res.url), "duration" := Num(duration)]
  }

  /** The video modal reports a different thumbnail than it saves. */
  lemma ReportedThumbnailDiffersFromSaved(form: Object, duration: nat, res: UploadResult)
    ensures Get(Report(VideoKind, form, duration, res), "thumbnailUrl") != Get(Payload(VideoKind, form, duration, res), "thumbnailUrl")
  {
    assert |res.url + ThumbnailSuffix| > |res.url|;
  }

  /** The save a modal makes after its upload: one POST of the payload when the upload
      returned a result, nothing when it failed. */
  function SaveCall(kind: MediaKind, m: Modal, outcome: UploadOutcome): (r: seq<Call>)
    ensures |r| <= 1
    ensures |r| == 1 <==> outcome.Uploaded?
    ensures outcome.Uploaded? ==> r[0] == Persist(Endpoint(kind), Payload(kind, m.form, m.duration, outcome.result))
  {
    if outcome.Uploaded? then [Persist(Endpoint(kind), Payload(kind, m.form, m.duration, outcome.result))] else []
  }

  /** The progress bar after an upload: the last percent shown, or 0 if none was. */
  function LastPercent(ps: seq<nat>): (r: nat)
    ensures |ps| == 0 ==> r == 0
    ensures |ps| > 0 ==> r == ps[|ps| - 1]
  {
    if |ps| == 0 then 0 else ps[|ps| - 1]
  }

  /** The first failure of a started modal upload: what its `catch` receives, or
      `None` when every step succeeds. */
  function FirstFailure(kind: MediaKind, creds: CredentialReply, up: UploadReply, persist: PersistReply): Option<Thrown>
  {
    if creds.CredentialFailure? then Some(creds.thrown)
    else if creds.nested.None? then Some(ErrorWithMessage(MissingParametersMessage))
    else TransferFailure(kind, up, persist)
  }

  /** The first failure once credentials are in hand: the upload's, then the save's. */
  function TransferFailure(kind: MediaKind, up: UploadReply, persist: PersistReply): Option<Thrown>
  {
    if up.outcome.UploadFailed? then Some(up.outcome.thrown)
    else if persist.PersistNotOk? then Some(ErrorWithMessage(SaveFailedMessage(kind)))
    else if persist.PersistFailed? then Some(persist.thrown)
    else None
  }

  /** The `catch` of a modal: not uploading, progress back to 0, the mapped message. */
  function Failed(m: Modal, t: Thrown): (r: Modal)
    ensures !r.uploading && r.progress == 0 && r.error == Some(UploadErrorMessage(t))
    ensures r.selected == m.selected && r.preview == m.preview && r.form == m.form && r.duration == m.duration
  {
    m.(uploading := false, progress := 0, error := Some(UploadErrorMessage(t)))
  }

  /** `handleSubmit` then `handleImageKitUpload`: start only with a file and no upload
      running; request credentials, upload, and only once the upload has returned a URL,
      save the record; a saved record is reported through `onUpload` (after the modal's
      500 ms delay, which is not modelled). */
  method SubmitUpload(kind: MediaKind, m: Modal, creds: CredentialReply, up: UploadReply, persist: PersistReply)
    returns (calls: seq<Call>, post: Modal, report: Option<Object>)
    ensures !(m.selected.Some? && !m.uploading) ==> calls == [] && post == m && report.None?
    ensures m.selected.Some? && !m.uploading ==>
      && !post.uploading
      && post.selected == m.selected && post.preview == m.preview
      && post.form == m.form && post.duration == m.duration
      && (report.Some? <==> FirstFailure(kind, creds, up, persist).None?)
      && (report.None? ==>
            post.progress == 0 && post.error == Some(UploadErrorMessage(FirstFailure(kind, creds, up, persist).value)))
      && (report.Some? ==>
            && up.outcome.Uploaded? && post.error.None?
            && post.progress == LastPercent(Percents(up.events))
            && report.value == Report(kind, m.form, m.duration, up.outcome.result))
    ensures m.selected.Some? && !m.uploading && (creds.CredentialFailure? || creds.nested.None?) ==>
      calls == [FetchCredentials]
    ensures m.selected.Some? && !m.uploading && creds.CredentialBody? && creds.nested.Some? ==>
      calls == ModalCalls(UploadFile(m.selected.value.name, Folder(kind), creds.nested),
                          Percents(up.events), SaveCall(kind, m, up.outcome))
    ensures report.Some? ==>
      calls[|calls| - 1] == Persist(Endpoint(kind), Payload(kind, m.form, m.duration, up.outcome.result))
  {
    if !(m.selected.Some? && !m.uploading) {
      return [], m, None;
    }
    var file := m.selected.value;
    calls := [FetchCredentials];
    report := None;
    var running := m.(uploading := true, progress := 0, error := None);
    if creds.CredentialFailure? {
      return calls, Failed(running, creds.thrown), None;
    }
    if creds.nested.None? {
      return calls, Failed(running, ErrorWithMessage(MissingParametersMessage)), None;
    }
    var upload := UploadFile(file.name, Folder(kind), creds.nested);
    var rest;
    rest, post, report := Transfer(kind, running, upload, up, persist);
    calls := [FetchCredentials, upload] + rest;
  }

  /** The calls of a modal upload that got its credentials: the request, the upload,
      its progress values and the save, if any. */
  function ModalCalls(upload: Call, percents: seq<nat>, save: seq<Call>): seq<Call>
  {
    [FetchCredentials, upload] + (Shown(percents) + save)
  }

  /** Where each call of a modal upload sits: credentials first, the upload second, the
      progress values after it, and a save, if any, last. */
  lemma ModalCallsShape(kind: MediaKind, m: Modal, upload: Call, up: UploadReply)
    requires upload.UploadFile?
    ensures var c := ModalCalls(upload, Percents(up.events), SaveCall(kind, m, up.outcome));
            var n := |Percents(up.events)|;
      && |c| == 2 + n + (if up.outcome.Uploaded? then 1 else 0)
      && c[0] == FetchCredentials && c[1] == upload
      && c[2..2 + n] == Shown(Percents(up.events))
      && (forall i :: 0 <= i < |c| && c[i].Persist? ==>
            && i == |c| - 1 && up.outcome.Uploaded?
            && c[i] == Persist(Endpoint(kind), Payload(kind, m.form, m.duration, up.outcome.result)))
  {
    var rest := Shown(Percents(up.events)) + SaveCall(kind, m, up.outcome);
    var n := |Percents(up.events)|;
    assert rest[..n] == Shown(Percents(up.events));
    CallsShape(upload, rest, n);
  }

  /** The part of a modal upload after the credentials: the upload with its progress,
      then, only for an uploaded file, the save. `m` is the modal as the upload starts. */
  method Transfer(kind: MediaKind, m: Modal, upload: Call, up: UploadReply, persist: PersistReply)
    returns (calls: seq<Call>, post: Modal, report: Option<Object>)
    requires m.progress == 0 && m.error.None?
    ensures |Percents(up.events)| <= |calls| <= |Percents(up.events)| + 1
    ensures calls[..|Percents(up.events)|] == Shown(Percents(up.events))
    ensures |calls| > |Percents(up.events)| <==> up.outcome.Uploaded?
    ensures up.outcome.Uploaded? ==>
      calls[|calls| - 1] == Persist(Endpoint(kind), Payload(kind, m.form, m.duration, up.outcome.result))
    ensures calls == Shown(Percents(up.events)) + SaveCall(kind, m, up.outcome)
    ensures !post.uploading
    ensures post.selected == m.selected && post.preview == m.preview && post.form == m.form && post.duration == m.duration
    ensures report.Some? <==> TransferFailure(kind, up, persist).None?
    ensures report.None? ==> post.progress == 0 && post.error == Some(UploadErrorMessage(TransferFailure(kind, up, persist).value))
    ensures report.Some? ==>
      && up.outcome.Uploaded? && post.error.None?
      && post.progress == LastPercent(Percents(up.events))
      && report.value == Report(kind, m.form, m.duration, up.outcome.result)
  {
    var shown, last := ReplayProgress(up.events, true);
    var running := if last.Some? then m.(progress := last.value) else m;
    if up.outcome.UploadFailed? {
      assert shown[..|shown|] == shown;
      return shown, Failed(running, up.outcome.thrown), None;
    }
    var res := up.outcome.result;
    calls := shown + [Persist(Endpoint(kind), Payload(kind, m.form, m.duration, res))];
    assert calls[..|shown|] == shown;
    report := None;
    match persist
    case PersistNotOk =>
      post := Failed(running, ErrorWithMessage(SaveFailedMessage(kind)));
    case PersistFailed(t) =>
      post := Failed(running, t);
    case PersistOk =>
      post := running.(uploading := false);
      report := Some(Report(kind, m.form, m.duration, res));
  }

  /** Where the calls of a started upload sit: credentials, the upload, then the rest,
      whose only possible save is its last call after `n` progress calls. */
  lemma CallsShape(upload: Call, rest: seq<Call>, n: nat)
    requires n <= |rest| <= n + 1
    requires forall i :: 0 <= i < n ==> !rest[i].Persist?
    ensures var c := [FetchCredentials, upload] + rest;
            && |c| == 2 + |rest|
            && c[0] == FetchCredentials && c[1] == upload
            && c[2..2 + n] == rest[..n]
            && (forall i :: 0 <= i < |c| && c[i].Persist? ==> (i == 1 && upload.Persist?) || (i == |c| - 1 && i == 2 + n))
  {
    var c := [FetchCredentials, upload] + rest;
    assert c[2..2 + n] == rest[..n];
    assert forall i :: 2 <= i < |c| ==> c[i] == rest[i - 2];
  }

  /** The credential shapes differ between the call sites: a reply carrying only the
      flat shape fails the modal before any upload. */
  lemma FlatOnlyCredentialsFailTheModal(kind: MediaKind, c: Credentials, up: UploadReply, persist: PersistReply)
    ensures FirstFailure(kind, CredentialBody(None, Some(c)), up, persist) == Some(ErrorWithMessage(MissingParametersMessage))
  {
  }

  // ---- The bare picker ----

  /** Reading a video's duration from its metadata: the value, or the rejection. */
  datatype DurationRead = DurationLoaded(seconds: nat) | MetadataFailed

  datatype Picker = Picker(uploading: bool, error: Option<string>)

  /** What `onSuccess` receives: the upload result extended with the duration. */
  datatype Delivered = Delivered(result: UploadResult, duration: nat)

  /** The folder the bare picker uploads into. */
  function PickerFolder(fileType: Option<MediaKind>): string
  {
    if fileType == Some(VideoKind) then "videos" else "images"
  }

  /** Whether the picker gets past reading the duration: only a video reads one. */
  predicate DurationReady(fileType: Option<MediaKind>, read: DurationRead)
  {
    fileType != Some(VideoKind) || read.DurationLoaded?
  }

  /** `handleFileChange`: check the file for the declared type, read a video's duration
      first, then request credentials (flat shape) and upload into the type's folder;
      progress goes to `onProgress` only when one is given. Every failure shows one
      generic message, and the uploading flag is always cleared at the end. */
  method ChangeFile(fileType: Option<MediaKind>, picked: Option<File>, hasOnProgress: bool,
                    read: DurationRead, creds: CredentialReply, up: UploadReply, p: Picker)
    returns (calls: seq<Call>, post: Picker, delivered: Option<Delivered>)
    ensures picked.None? ==> calls == [] && post == p && delivered.None?
    ensures picked.Some? && ValidateForFileType(fileType, picked.value).Rejected? ==>
      calls == [] && post == p.(error := Some(ValidateForFileType(fileType, picked.value).message)) && delivered.None?
    ensures picked.Some? && ValidateForFileType(fileType, picked.value) == Accepted ==>
      && !post.uploading && |calls| >= 1
      && (calls[0] == ReadDuration <==> fileType == Some(VideoKind))
      && (delivered.Some? ==> post.error.None?)
      && (delivered.None? ==> post.error == Some(GenericUploadMessage))
      && (delivered.Some? <==> DurationReady(fileType, read) && creds.CredentialBody? && up.outcome.Uploaded?)
      && calls == PickerCalls(fileType, picked.value.name, hasOnProgress, read, creds, up)
    ensures forall i :: 0 <= i < |calls| && calls[i] == FetchCredentials ==>
      (fileType == Some(VideoKind) ==> i == 1 && read.DurationLoaded?) && (fileType != Some(VideoKind) ==> i == 0)
    ensures forall i :: 0 <= i < |calls| && calls[i].UploadFile? ==>
      && 0 < i && calls[i - 1] == FetchCredentials && creds.CredentialBody?
      && calls[i] == UploadFile(picked.value.name, PickerFolder(fileType), creds.flat)
    ensures forall i :: 0 <= i < |calls| && calls[i].ShowProgress? ==> hasOnProgress
    ensures delivered.Some? ==>
      && up.outcome.Uploaded? && delivered.value.result == up.outcome.result
      && delivered.value.duration == (if fileType == Some(VideoKind) && read.DurationLoaded? then read.seconds else 0)
  {
    if picked.None? {
      return [], p, None;
    }
    var file := picked.value;
    var verdict := ValidateForFileType(fileType, file);
    if verdict.Rejected? {
      return [], p.(error := Some(verdict.message)), None;
    }
    var error;
    calls, error, delivered := PickerUpload(fileType, file.name, hasOnProgress, read, creds, up);
    PickerCallsShape(fileType, file.name, hasOnProgress, read, creds, up);
    post := Picker(false, error);
  }

  /** The calls of an accepted pick, stage by stage: the duration read (videos), then,
      once the duration is known, the credential request, then, once credentials
      arrived, the upload followed by its progress values when `onProgress` is given. */
  function PickerCalls(fileType: Option<MediaKind>, name: string, hasOnProgress: bool,
                       read: DurationRead, creds: CredentialReply, up: UploadReply): seq<Call>
  {
    var readCall := if fileType == Some(VideoKind) then [ReadDuration] else [];
    if !DurationReady(fileType, read) then readCall
    else if creds.CredentialFailure? then readCall + [FetchCredentials]
    else
      readCall + [FetchCredentials, UploadFile(name, PickerFolder(fileType), creds.flat)]
      + (if hasOnProgress then Shown(Percents(up.events)) else [])
  }

  /** Where each kind of call sits in an accepted pick's calls. */
  lemma PickerCallsShape(fileType: Option<MediaKind>, name: string, hasOnProgress: bool,
                         read: DurationRead, creds: CredentialReply, up: UploadReply)
    ensures var c := PickerCalls(fileType, name, hasOnProgress, read, creds, up);
      && |c| >= 1 && (c[0] == ReadDuration <==> fileType == Some(VideoKind))
      && (forall i :: 0 <= i < |c| && c[i] == FetchCredentials ==>
            (fileType == Some(VideoKind) ==> i == 1 && read.DurationLoaded?) && (fileType != Some(VideoKind) ==> i == 0))
      && (forall i :: 0 <= i < |c| && c[i].UploadFile? ==>
            && 0 < i && c[i - 1] == FetchCredentials && creds.CredentialBody?
            && c[i] == UploadFile(name, PickerFolder(fileType), creds.flat))
      && (forall i :: 0 <= i < |c| && c[i].ShowProgress? ==> hasOnProgress)
  {
    var c := PickerCalls(fileType, name, hasOnProgress, read, creds, up);
    var pre := if fileType == Some(VideoKind) then [ReadDuration] else [];
    if DurationReady(fileType, read) && creds.CredentialBody? {
      var shown := if hasOnProgress then Shown(Percents(up.events)) else [];
      assert c == pre + [FetchCredentials, UploadFile(name, PickerFolder(fileType), creds.flat)] + shown;
      assert forall i :: |pre| + 2 <= i < |c| ==> c[i] == shown[i - |pre| - 2];
    }
  }

  /** `handleFileChange` after the file check: what happens, the error line it leaves
      and what reaches `onSuccess`. */
  method PickerUpload(fileType: Option<MediaKind>, name: string, hasOnProgress: bool,
                      read: DurationRead, creds: CredentialReply, up: UploadReply)
    returns (calls: seq<Call>, error: Option<string>, delivered: Option<Delivered>)
    ensures calls == PickerCalls(fileType, name, hasOnProgress, read, creds, up)
    ensures delivered.Some? <==> DurationReady(fileType, read) && creds.CredentialBody? && up.outcome.Uploaded?
    ensures delivered.Some? ==> error.None?
    ensures delivered.None? ==> error == Some(GenericUploadMessage)
    ensures delivered.Some? ==>
      && up.outcome.Uploaded? && delivered.value.result == up.outcome.result
      && delivered.value.duration == (if fileType == Some(VideoKind) && read.DurationLoaded? then read.seconds else 0)
  {
    calls := [];
    delivered := None;
    var duration := 0;
    if fileType == Some(VideoKind) {
      calls := [ReadDuration];
      if read.MetadataFailed? {
        return calls, Some(GenericUploadMessage), None;
      }
      duration := read.seconds;
    }
    calls := calls + [FetchCredentials];
    if creds.CredentialFailure? {
      return calls, Some(GenericUploadMessage), None;
    }
    calls := calls + [UploadFile(name, PickerFolder(fileType), creds.flat)];
    var shown, _ := ReplayProgress(up.events, hasOnProgress);
    calls := calls + shown;
    if up.outcome.UploadFailed? {
      return calls, Some(GenericUploadMessage), None;
    }
    return calls, None, Some(Delivered(up.outcome.result, duration));
  }

  // ---- From the modal to the image route ----

  /** The image form after the user typed a title and a description. */
  function FilledImageForm(title: string, description: string): Object
  {
    InitialImageForm["title" := Str(title)]["description" := Str(description)]
  }

  /** The quality slider (`name="transformations.quality"`, `type="range"`): its
      value arrives as the text of the chosen number. */
  function SliderEvent(q: nat): InputEvent
  {
    InputEvent("transformations" + "." + "quality", OtherField, NatToString(q), false, 0)
  }

  /** The route's default transformations with the quality the slider wrote. */
  function SliderTransformations(q: nat): Object
  {
    ImageRoute.RouteTransformations["quality" := Str(NatToString(q))]
  }

  /** The filled image form after the slider was moved to `q`. */
  function SlidImageForm(title: string, description: string, q: nat): (f: Object)
    ensures CarriesModalFields(f, title, description, SliderTransformations(q))
  {
    SliderFormFields(title, description, q);
    ApplyInput(FilledImageForm(title, description), SliderEvent(q))
  }

  /** The fields of a filled image form that reach the route, with `t` as its
      transformations. */
  predicate CarriesModalFields(o: Object, title: string, description: string, t: Object)
  {
    && Get(o, "title") == Some(Str(title))
    && Get(o, "description") == Some(Str(description))
    && Get(o, "alt") == Some(Str(""))
    && Get(o, "format") == Some(Str("webp"))
    && Get(o, "transformations") == Some(Obj(t))
  }

  lemma FilledFormFields(title: string, description: string)
    ensures CarriesModalFields(FilledImageForm(title, description), title, description, ImageRoute.RouteTransformations)
  {
    var f := FilledImageForm(title, description);
    assert f["alt"] == Str("") && f["format"] == Str("webp");
    assert f["transformations"] == Obj(ImageRoute.RouteTransformations);
  }

  /** Moving the slider writes its text into the nested quality and nothing else. */
  lemma SliderFormFields(title: string, description: string, q: nat)
    ensures CarriesModalFields(ApplyInput(FilledImageForm(title, description), SliderEvent(q)), title, description,
                               SliderTransformations(q))
  {
    var f := FilledImageForm(title, description);
    var e := SliderEvent(q);
    var v := Str(NatToString(q));
    FilledFormFields(title, description);
    DottedUpdate(f, "transformations", "quality", e);
    assert InputValue(e) == v;
    SliderUpdate(f, title, description, ImageRoute.RouteTransformations, InputValue(e));
  }

  /** Writing a nested quality into a form that carries the modal's fields. */
  lemma SliderUpdate(f: Object, title: string, description: string, t: Object, v: Value)
    requires CarriesModalFields(f, title, description, t)
    ensures CarriesModalFields(f["transformations" := Obj(Spread(Get(f, "transformations"))["quality" := v])],
                               title, description, t["quality" := v])
  {
  }

  lemma PayloadKeepsFields(form: Object, title: string, description: string, t: Object, res: UploadResult)
    requires CarriesModalFields(form, title, description, t)
    ensures CarriesModalFields(Payload(ImageKind, form, 0, res), title, description, t)
    ensures Get(Payload(ImageKind, form, 0, res), "imageUrl") == Some(Str(res.url))
    ensures |title| > 0 && |description| > 0 && |res.url| > 0 ==> ImageRoute.HasRequiredFields(Payload(ImageKind, form, 0, res))
  {
  }

  /** What the image route builds from the modal's payload: the typed fields, the
      uploaded URL, the modal's own alt, format and (complete) transformations. */
  lemma RouteKeepsFields(body: Object, email: string, title: string, description: string, t: Object, url: string)
    requires t.Keys == ImageRoute.TransformationKeys
    requires CarriesModalFields(body, title, description, t)
    requires Get(body, "imageUrl") == Some(Str(url))
    ensures CarriesModalFields(ImageRoute.ImageData(body, email), title, description, t)
    ensures Get(ImageRoute.ImageData(body, email), "imageUrl") == Some(Str(url))
  {
    var merged := ImageRoute.MergeTransformations(Some(Obj(t)));
    assert merged.Keys == t.Keys;
    assert merged == t;
  }

  lemma SchemaAcceptsModalFields(data: Object, title: string, description: string, t: Object,
                                 tr: ImageSchema.Transformations, url: string)
    requires |title| > 0 && |description| > 0 && |url| > 0
    requires CarriesModalFields(data, title, description, t)
    requires ImageSchema.TransformationsOf(Some(Obj(t))) == Some(tr)
    requires Get(data, "imageUrl") == Some(Str(url))
    ensures ImageSchema.CastImage(data) == Some(ImageSchema.ImageDoc(title, description, url, "", ImageSchema.Webp, tr))
  {
  }

  /** The schema casts the slider's text back to the chosen quality. */
  lemma SliderTransformationsCast(q: nat)
    requires ImageSchema.MinQuality <= q <= ImageSchema.MaxQuality
    ensures SliderTransformations(q).Keys == ImageRoute.TransformationKeys
    ensures ImageSchema.TransformationsOf(Some(Obj(SliderTransformations(q))))
         == Some(ImageSchema.Transformations(1080, 1080, false, ImageSchema.Cover, Some(q)))
  {
    var m := SliderTransformations(q);
    ImageSchema.CastNumberOfRendered(q);
    assert Get(m, "width") == Some(Num(1080)) && Get(m, "height") == Some(Num(1080));
    assert Get(m, "crop") == Some(Bool(false)) && Get(m, "fit") == Some(Str("cover"));
    assert Get(m, "quality") == Some(Str(NatToString(q)));
  }

  /** The modal's path to the route: a form carrying the fields and complete
      transformations that cast to `tr` is saved under the session's address. */
  lemma ModalFormIsSaved(st: MediaStore.Store, email: string, form: Object, title: string, description: string,
                         t: Object, tr: ImageSchema.Transformations, res: UploadResult)
    requires |email| > 0 && |title| > 0 && |description| > 0 && |res.url| > 0
    requires t.Keys == ImageRoute.TransformationKeys
    requires CarriesModalFields(form, title, description, t)
    requires ImageSchema.TransformationsOf(Some(Obj(t))) == Some(tr)
    ensures var s := ImageRoute.CreateImage(st, Some(email), Payload(ImageKind, form, 0, res));
            && s.reply.Ok?
            && s.reply.value.userEmail == email
            && s.reply.value.doc == ImageSchema.ImageDoc(title, description, res.url, "", ImageSchema.Webp, tr)
  {
    var payload := Payload(ImageKind, form, 0, res);
    PayloadKeepsFields(form, title, description, t, res);
    RouteKeepsFields(payload, email, title, description, t, res.url);
    var data := ImageRoute.ImageData(payload, email);
    SchemaAcceptsModalFields(data, title, description, t, tr, res.url);
    ImageRoute.CreateFromCastable(st, email, payload, ImageSchema.ImageDoc(title, description, res.url, "", ImageSchema.Webp, tr));
  }

  /** An image uploaded through the modal with a title and a description is saved by the
      route under the session's address, at the uploaded URL, with the modal's defaults
      (empty alt, webp, 1080 by 1080, no crop, cover, quality 80); the form's empty
      `userEmail` plays no part. */
  lemma ModalImageIsSaved(st: MediaStore.Store, email: string, title: string, description: string, res: UploadResult)
    requires |email| > 0 && |title| > 0 && |description| > 0 && |res.url| > 0
    ensures var s := ImageRoute.CreateImage(st, Some(email), Payload(ImageKind, FilledImageForm(title, description), 0, res));
            && s.reply.Ok?
            && s.reply.value.userEmail == email
            && s.reply.value.doc == ImageSchema.ImageDoc(title, description, res.url, "", ImageSchema.Webp,
                 ImageSchema.Transformations(1080, 1080, false, ImageSchema.Cover, Some(80)))
  {
    FilledFormFields(title, description);
    ImageRoute.RouteTransformationsCast();
    ModalFormIsSaved(st, email, FilledImageForm(title, description), title, description, ImageRoute.RouteTransformations,
      ImageSchema.Transformations(1080, 1080, false, ImageSchema.Cover, Some(80)), res);
  }

  /** After the slider is moved to any quality in [1, 100], the image is saved with
      that quality: the text the range input reports is cast back to the number. */
  lemma ModalImageWithSliderIsSaved(st: MediaStore.Store, email: string, title: string, description: string,
                                    q: nat, res: UploadResult)
    requires |email| > 0 && |title| > 0 && |description| > 0 && |res.url| > 0
    requires ImageSchema.MinQuality <= q <= ImageSchema.MaxQuality
    ensures var s := ImageRoute.CreateImage(st, Some(email), Payload(ImageKind, SlidImageForm(title, description, q), 0, res));
            && s.reply.Ok?
            && s.reply.value.userEmail == email
            && s.reply.value.doc == ImageSchema.ImageDoc(title, description, res.url, "", ImageSchema.Webp,
                 ImageSchema.Transformations(1080, 1080, false, ImageSchema.Cover, Some(q)))
  {
    SliderTransformationsCast(q);
    ModalFormIsSaved(st, email, SlidImageForm(title, description, q), title, description,
      SliderTransformations(q), ImageSchema.Transformations(1080, 1080, false, ImageSchema.Cover, Some(q)), res);
  }
}
