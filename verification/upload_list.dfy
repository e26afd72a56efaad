/**
 * The attachment upload panel in the browser: the list of dropped files,
 * each with its upload status, and what the upload requests' progress,
 * load and error events do to it. The object URLs for previews and the
 * server's responses are parameters; requests, callbacks and toasts are
 * returned as effects.
 */
module UploadList {
  import opened Base
  import opened Records

  /** The panel's default size limit, handed to the drop zone: 50 MiB. */
  const DefaultMaxSize: nat := 50 * 1024 * 1024

  /** The attachment type a MIME type is uploaded as. */
  function FileType(mimetype: string): (t: AttachmentType)
    ensures IsPrefix("image/", mimetype) <==> t == ImageFile
    ensures !IsPrefix("image/", mimetype) && IsPrefix("audio/", mimetype) ==> t == AudioFile
    ensures !IsPrefix("image/", mimetype) && !IsPrefix("audio/", mimetype) && IsPrefix("video/", mimetype) ==> t == VideoFile
    ensures t == DocumentFile <==>
      && !IsPrefix("image/", mimetype) && !IsPrefix("audio/", mimetype) && !IsPrefix("video/", mimetype)
      && (Contains(mimetype, "pdf") || Contains(mimetype, "document") || Contains(mimetype, "text"))
    ensures t == OtherFile <==>
      && !IsPrefix("image/", mimetype) && !IsPrefix("audio/", mimetype) && !IsPrefix("video/", mimetype)
      && !Contains(mimetype, "pdf") && !Contains(mimetype, "document") && !Contains(mimetype, "text")
  {
    if IsPrefix("image/", mimetype) then ImageFile
    else if IsPrefix("audio/", mimetype) then AudioFile
    else if IsPrefix("video/", mimetype) then VideoFile
    else if Contains(mimetype, "pdf") || Contains(mimetype, "document") || Contains(mimetype, "text") then DocumentFile
    else OtherFile
  }

  datatype UploadStatus = Pending | Uploading | Succeeded | Errored

  /** Upload progress: a percentage the panel sets, or the fraction a progress event reports. */
  datatype Progress = Percent(value: nat) | Fraction(loaded: nat, total: nat)

  /** A file chosen by the user, as the drop zone hands it over. */
  datatype DroppedFile = DroppedFile(name: string, mimeType: string, size: nat)

  datatype FileEntry = FileEntry(
    file: DroppedFile,
    preview: Option<string>,
    progress: Option<Progress>,
    status: UploadStatus,
    uploadError: Option<string>)

  /** One upload request: the list index and file it was sent for, and the form fields. */
  datatype UploadRequest = UploadRequest(index: int, file: DroppedFile, conversationId: string, attachmentType: AttachmentType)

  datatype Effect =
    | RevokePreview(url: string)
    | Send(request: UploadRequest)
    | UploadComplete(response: string)
    | UploadError(message: string)
    | ToastSuccess(text: string)
    | ToastError(text: string)

  datatype Panel = Panel(files: seq<FileEntry>, effects: seq<Effect>)

  // ---------------------------------------------------------------------
  // Adding and removing files
  // ---------------------------------------------------------------------

  function Entry(f: DroppedFile, previewUrl: DroppedFile -> string): FileEntry {
    FileEntry(f, if IsPrefix("image/", f.mimeType) then Some(previewUrl(f)) else None, None, Pending, None)
  }

  /** Dropped files are appended, pending, with a preview URL for images. */
  function Dropped(files: seq<FileEntry>, dropped: seq<DroppedFile>, previewUrl: DroppedFile -> string): (r: seq<FileEntry>)
    ensures |r| == |files| + |dropped| && r[..|files|] == files
    ensures forall i :: 0 <= i < |dropped| ==>
      && r[|files| + i].file == dropped[i] && r[|files| + i].status == Pending
      && r[|files| + i].progress.None? && r[|files| + i].uploadError.None?
      && (r[|files| + i].preview.Some? <==> FileType(dropped[i].mimeType) == ImageFile)
  {
    files + Map((f: DroppedFile) => Entry(f, previewUrl), dropped)
  }

  /**
   * `removeFile`: an index with no file makes the update read a property
   * of `undefined`, a type error; otherwise the file is taken out and its
   * preview URL revoked.
   */
  function Remove(files: seq<FileEntry>, index: int): (r: Result<Panel>)
    ensures r.Err? <==> !(0 <= index < |files|)
    ensures r.Err? ==> r.error.TypeError?
    ensures r.Ok? ==>
      && r.value.files == files[..index] + files[index + 1..]
      && r.value.effects == (if Given(files[index].preview) then [RevokePreview(files[index].preview.value)] else [])
  {
    if !(0 <= index < |files|) then Err(TypeError("Cannot read properties of undefined (reading 'preview')"))
    else
      var revoke := if Given(files[index].preview) then [RevokePreview(files[index].preview.value)] else [];
      Ok(Panel(files[..index] + files[index + 1..], revoke))
  }

  /** Removing a file and putting it back in its place restores the list. */
  lemma RemoveThenInsert(files: seq<FileEntry>, index: int)
    requires 0 <= index < |files|
    ensures var r := Remove(files, index).value.files;
      r[..index] + [files[index]] + r[index..] == files
  {
    var r := Remove(files, index).value.files;
    assert r[..index] == files[..index];
    assert r[index..] == files[index + 1..];
  }

  // ---------------------------------------------------------------------
  // Starting the uploads
  // ---------------------------------------------------------------------

  function Started(f: FileEntry): FileEntry {
    f.(status := Uploading, progress := Some(Percent(0)))
  }

  function RequestFor(files: seq<FileEntry>, i: nat, conversationId: string): UploadRequest
    requires i < |files|
  {
    UploadRequest(i, files[i].file, conversationId, FileType(files[i].file.mimeType))
  }

  /** The requests for the files from `from` on not yet uploaded, in list order. */
  function PendingRequests(files: seq<FileEntry>, from: nat, conversationId: string): (r: seq<UploadRequest>)
    requires from <= |files|
    ensures forall k :: 0 <= k < |r| ==>
      && from <= r[k].index < |files| && files[r[k].index].status != Succeeded
      && r[k] == RequestFor(files, r[k].index, conversationId)
    ensures forall j, k :: 0 <= j < k < |r| ==> r[j].index < r[k].index
    decreases |files| - from
  {
    if from == |files| then []
    else if files[from].status != Succeeded then [RequestFor(files, from, conversationId)] + PendingRequests(files, from + 1, conversationId)
    else PendingRequests(files, from + 1, conversationId)
  }

  /** Every file not yet uploaded gets a request. */
  lemma {:induction false} PendingRequestsComplete(files: seq<FileEntry>, from: nat, conversationId: string, i: nat)
    requires from <= i < |files| && files[i].status != Succeeded
    ensures exists k :: 0 <= k < |PendingRequests(files, from, conversationId)| && PendingRequests(files, from, conversationId)[k].index == i
    decreases i - from
  {
    var r := PendingRequests(files, from, conversationId);
    if i == from {
      assert r[0].index == i;
    } else {
      PendingRequestsComplete(files, from + 1, conversationId, i);
      var rest := PendingRequests(files, from + 1, conversationId);
      var k :| 0 <= k < |rest| && rest[k].index == i;
      if files[from].status != Succeeded {
        assert r[k + 1] == rest[k];
      } else {
        assert r[k] == rest[k];
      }
    }
  }

  /** Unfolding one step of the request list. */
  lemma PendingRequestsStep(files: seq<FileEntry>, i: nat, conversationId: string)
    requires i < |files|
    ensures PendingRequests(files, i, conversationId) ==
      (if files[i].status != Succeeded then [RequestFor(files, i, conversationId)] else []) + PendingRequests(files, i + 1, conversationId)
  {
  }

  /**
   * `uploadFiles`: every file not yet uploaded, in list order, is marked
   * uploading at zero progress and its request sent; uploaded files are
   * left alone.
   */
  method UploadAll(files: seq<FileEntry>, conversationId: string) returns (next: seq<FileEntry>, requests: seq<UploadRequest>)
    ensures |next| == |files|
    ensures forall i :: 0 <= i < |files| ==>
      next[i] == if files[i].status == Succeeded then files[i] else Started(files[i])
    ensures requests == PendingRequests(files, 0, conversationId)
  {
    next := files;
    requests := [];
    var i := 0;
    while i < |files|
      invariant 0 <= i <= |files| && |next| == |files|
      invariant forall j :: 0 <= j < i ==> next[j] == if files[j].status == Succeeded then files[j] else Started(files[j])
      invariant forall j :: i <= j < |files| ==> next[j] == files[j]
      invariant requests + PendingRequests(files, i, conversationId) == PendingRequests(files, 0, conversationId)
    {
      PendingRequestsStep(files, i, conversationId);
      if files[i].status != Succeeded {
        assert requests + [RequestFor(files, i, conversationId)] + PendingRequests(files, i + 1, conversationId)
            == requests + ([RequestFor(files, i, conversationId)] + PendingRequests(files, i + 1, conversationId));
        next := next[i := Started(files[i])];
        requests := requests + [RequestFor(files, i, conversationId)];
      }
      i := i + 1;
    }
    assert PendingRequests(files, i, conversationId) == [];
  }

  /** Uploading again after everything succeeded sends nothing and changes nothing. */
  lemma {:induction false} NothingToRetry(files: seq<FileEntry>, from: nat, conversationId: string)
    requires from <= |files|
    requires forall i :: from <= i < |files| ==> files[i].status == Succeeded
    ensures PendingRequests(files, from, conversationId) == []
    decreases |files| - from
  {
    if from < |files| {
      NothingToRetry(files, from + 1, conversationId);
    }
  }

  // ---------------------------------------------------------------------
  // Starting the uploads as written
  // ---------------------------------------------------------------------

  /**
   * An entry some status update has rebuilt. Every update writes
   * `{ ...f, uploadStatus: … }`, and the spread copies only a `File`'s own
   * properties, so a rebuilt entry has lost the file's name, type and size.
   * Only a freshly dropped entry is still pending.
   */
  predicate Copied(f: FileEntry) {
    f.status != Pending
  }

  /** The first entry from `from` on that a run must send but that has lost its file type; `|files|` when none. */
  function Blocker(files: seq<FileEntry>, from: nat): (b: nat)
    requires from <= |files|
    ensures from <= b <= |files|
    ensures b < |files| ==> files[b].status != Succeeded && Copied(files[b])
    ensures forall i :: from <= i < b ==> files[i].status == Succeeded || !Copied(files[i])
    decreases |files| - from
  {
    if from == |files| then from
    else if files[from].status != Succeeded && Copied(files[from]) then from
    else Blocker(files, from + 1)
  }

  /** What a run of `uploadFiles` leaves: the list, the requests sent, the uploading flag and an escaped error. */
  datatype Run = Run(files: seq<FileEntry>, requests: seq<UploadRequest>, uploading: bool, failure: Option<Fault>)

  /** The error `getFileType` raises when the entry's `type` is undefined. */
  const MissingType: Fault := TypeError("Cannot read properties of undefined (reading 'startsWith')")

  /**
   * `uploadFiles` from index `from` on, as written: a file not yet
   * uploaded is started and sent while it is still the dropped file; the
   * first one that is a rebuilt copy throws in `getFileType` before its
   * `try`, the error escapes the run, and the uploading flag stays set.
   */
  function UploadFromAsWritten(files: seq<FileEntry>, from: nat, conversationId: string): (r: Run)
    requires from <= |files|
    ensures |r.files| == |files|
    ensures forall i :: 0 <= i < |files| ==>
      r.files[i] == if from <= i < Blocker(files, from) && files[i].status != Succeeded then Started(files[i]) else files[i]
    ensures r.failure.Some? <==> Blocker(files, from) < |files|
    ensures r.failure.Some? ==> r.failure == Some(MissingType)
    ensures r.uploading <==> r.failure.Some?
    ensures forall k :: 0 <= k < |r.requests| ==>
      && from <= r.requests[k].index < Blocker(files, from)
      && r.requests[k] == RequestFor(files, r.requests[k].index, conversationId)
    ensures Blocker(files, from) == |files| ==> r.requests == PendingRequests(files, from, conversationId)
    decreases |files| - from
  {
    if from == |files| then Run(files, [], false, None)
    else if files[from].status == Succeeded then UploadFromAsWritten(files, from + 1, conversationId)
    else if Copied(files[from]) then Run(files, [], true, Some(MissingType))
    else
      var rest := UploadFromAsWritten(files, from + 1, conversationId);
      Run(rest.files[from := Started(files[from])], [RequestFor(files, from, conversationId)] + rest.requests,
          rest.uploading, rest.failure)
  }

  /**
   * As written, the run agrees with the corrected `UploadAll` exactly when
   * no file it must send is a rebuilt copy, and otherwise it fails with the
   * uploading flag left set.
   */
  lemma AsWrittenAgreesOnFreshFiles(files: seq<FileEntry>, conversationId: string)
    ensures var r := UploadFromAsWritten(files, 0, conversationId);
      && (r.failure.None? <==> forall i :: 0 <= i < |files| && files[i].status != Succeeded ==> files[i].status == Pending)
      && (r.failure.None? ==>
            && r.requests == PendingRequests(files, 0, conversationId)
            && forall i :: 0 <= i < |files| ==>
                 r.files[i] == if files[i].status == Succeeded then files[i] else Started(files[i]))
  {
    var b := Blocker(files, 0);
    if b < |files| {
      assert files[b].status != Succeeded && files[b].status != Pending;
    }
  }

  /** One file, dropped, started, and failed on the network. */
  function FailedOnce(f: DroppedFile, previewUrl: DroppedFile -> string, conversationId: string): seq<FileEntry> {
    var started := UpdateAt(Dropped([], [f], previewUrl), 0, Started);
    OnRequestEvent(started, RequestFor(Dropped([], [f], previewUrl), 0, conversationId), NetworkError).files
  }

  /** The "Upload All" button is shown only while some file is still pending. */
  predicate UploadAllShown(files: seq<FileEntry>) {
    exists i :: 0 <= i < |files| && files[i].status == Pending
  }

  /**
   * As written, once an image's upload has failed on the network, dropping
   * another file shows "Upload All" again; pressing it throws on the failed
   * image, sends nothing and leaves the panel uploading. The corrected run
   * sends both files. (An object URL is never empty, so the image keeps
   * showing its preview.)
   */
  lemma AsWrittenRetryThrows(img: DroppedFile, g: DroppedFile, previewUrl: DroppedFile -> string, conversationId: string)
    requires FileType(img.mimeType) == ImageFile && previewUrl(img) != ""
    ensures var list := Dropped(FailedOnce(img, previewUrl, conversationId), [g], previewUrl);
      && UploadAllShown(list)
      && RendersAsWritten(list)
      && UploadFromAsWritten(list, 0, conversationId) == Run(list, [], true, Some(MissingType))
      && PendingRequests(list, 0, conversationId)
         == [UploadRequest(0, img, conversationId, ImageFile), UploadRequest(1, g, conversationId, FileType(g.mimeType))]
  {
    var failed := FailedOnce(img, previewUrl, conversationId);
    assert |failed| == 1 && failed[0].status == Errored && failed[0].file == img && Given(failed[0].preview);
    var list := Dropped(failed, [g], previewUrl);
    assert list[0] == failed[0] && list[1].status == Pending;
    PendingRequestsStep(list, 0, conversationId);
    PendingRequestsStep(list, 1, conversationId);
  }

  /**
   * The list renders as written: an entry without a preview shows the icon
   * of `getFileType(file.type)`, which throws for a rebuilt entry, so every
   * rebuilt entry must have a preview.
   */
  predicate RendersAsWritten(files: seq<FileEntry>) {
    forall i :: 0 <= i < |files| && Copied(files[i]) ==> Given(files[i].preview)
  }

  /**
   * As written, a freshly dropped list renders, but starting the upload of
   * a file that is not an image makes the next render throw; an image
   * keeps its preview and still renders.
   */
  lemma AsWrittenStartedFileBreaksRender(files: seq<FileEntry>, f: DroppedFile, previewUrl: DroppedFile -> string)
    requires forall i :: 0 <= i < |files| ==> files[i].status == Pending
    ensures RendersAsWritten(Dropped(files, [f], previewUrl))
    ensures var started := UpdateAt(Dropped(files, [f], previewUrl), |files|, Started);
      RendersAsWritten(started) <==> FileType(f.mimeType) == ImageFile && previewUrl(f) != ""
  {
    var list := Dropped(files, [f], previewUrl);
    var started := UpdateAt(list, |files|, Started);
    assert list[|files|] == Entry(f, previewUrl);
    assert Copied(started[|files|]);
    assert forall i :: 0 <= i < |files| ==> started[i] == files[i];
  }

  // ---------------------------------------------------------------------
  // Request events
  // ---------------------------------------------------------------------

  /** The panel's per-index update: the file at `index` changes, if there is one, and no other. */
  function UpdateAt(files: seq<FileEntry>, index: int, f: FileEntry -> FileEntry): (r: seq<FileEntry>)
    ensures |r| == |files|
    ensures forall i :: 0 <= i < |files| ==> r[i] == if i == index then f(files[i]) else files[i]
  {
    if 0 <= index < |files| then files[index := f(files[index])] else files
  }

  datatype RequestEvent =
    | ProgressEvent(lengthComputable: bool, loaded: nat, total: nat)
    | LoadEvent(status: int, response: string)
    | NetworkError

  predicate Accepted(status: int) {
    status == 200 || status == 201
  }

  function SucceededWith(f: FileEntry): FileEntry {
    f.(status := Succeeded, progress := Some(Percent(100)))
  }

  function FailedWith(message: string): FileEntry -> FileEntry {
    (f: FileEntry) => f.(status := Errored, uploadError := Some(message))
  }

  /** What every event does except a load with a status other than 200 or 201. */
  function Handled(files: seq<FileEntry>, req: UploadRequest, e: RequestEvent): (p: Panel)
    requires !e.LoadEvent? || Accepted(e.status)
  {
    match e
    case ProgressEvent(computable, loaded, total) =>
      if computable
      then Panel(UpdateAt(files, req.index, (f: FileEntry) => f.(progress := Some(Fraction(loaded, total)))), [])
      else Panel(files, [])
    case LoadEvent(_, response) =>
      Panel(UpdateAt(files, req.index, SucceededWith),
            [UploadComplete(response), ToastSuccess(req.file.name + " uploaded successfully")])
    case NetworkError =>
      var message := "Failed to upload " + req.file.name;
      Panel(UpdateAt(files, req.index, FailedWith(message)), [UploadError(message), ToastError(message)])
  }

  /** The message of the error a rejected load raises. */
  function StatusMessage(status: int): string {
    "Upload failed with status " + (if status < 0 then "-" + NatToString(-status) else NatToString(status))
  }

  /**
   * A request event, as written: a load with another status throws inside
   * the event listener, after the surrounding `try` has finished, so the
   * error is never caught — nothing changes and no one is told.
   */
  function OnRequestEventAsWritten(files: seq<FileEntry>, req: UploadRequest, e: RequestEvent): (p: Panel)
    ensures e.LoadEvent? && !Accepted(e.status) ==> p == Panel(files, [])
    ensures !e.LoadEvent? || Accepted(e.status) ==> p == OnRequestEvent(files, req, e)
  {
    if e.LoadEvent? && !Accepted(e.status) then Panel(files, []) else Handled(files, req, e)
  }

  /**
   * A request event as the listener's error handling evidently intends: a
   * rejected load marks the file failed and reports the status, as the
   * catch block does for errors raised while sending.
   */
  function OnRequestEvent(files: seq<FileEntry>, req: UploadRequest, e: RequestEvent): (p: Panel)
    ensures |p.files| == |files|
    ensures forall i :: 0 <= i < |files| && i != req.index ==> p.files[i] == files[i]
    ensures e.LoadEvent? && 0 <= req.index < |files| ==>
      && (p.files[req.index].status == Succeeded <==> Accepted(e.status))
      && (p.files[req.index].status == Errored <==> !Accepted(e.status))
      && (Accepted(e.status) <==> UploadComplete(e.response) in p.effects)
      && (!Accepted(e.status) <==> UploadError(StatusMessage(e.status)) in p.effects)
    ensures e.NetworkError? && 0 <= req.index < |files| ==>
      p.files[req.index].status == Errored && p.files[req.index].uploadError == Some("Failed to upload " + req.file.name)
    ensures e.ProgressEvent? ==> forall i :: 0 <= i < |files| ==> p.files[i].status == files[i].status
  {
    if e.LoadEvent? && !Accepted(e.status) then
      var message := StatusMessage(e.status);
      Panel(UpdateAt(files, req.index, FailedWith(message)),
            [UploadError(message), ToastError("Failed to upload " + req.file.name + ": " + message)])
    else Handled(files, req, e)
  }

  /** A load or a network error settles the file: it is no longer uploading. */
  lemma FinalEventSettles(files: seq<FileEntry>, req: UploadRequest, e: RequestEvent)
    requires e.LoadEvent? || e.NetworkError?
    requires 0 <= req.index < |files|
    ensures OnRequestEvent(files, req, e).files[req.index].status in {Succeeded, Errored}
  {
  }

  /** As written, a file whose upload the server refuses stays uploading and the caller hears nothing. */
  lemma AsWrittenRefusedLoadStaysUploading(files: seq<FileEntry>, conversationId: string, index: nat)
    requires index < |files| && files[index].status == Pending
    ensures var started := UpdateAt(files, index, Started);
      var p := OnRequestEventAsWritten(started, RequestFor(files, index, conversationId), LoadEvent(500, ""));
      p.files[index].status == Uploading && p.effects == []
  {
  }

  /** Images, and only images, get a preview, and they are uploaded as images. */
  lemma PreviewMeansImage(f: DroppedFile, previewUrl: DroppedFile -> string)
    ensures Entry(f, previewUrl).preview.Some? <==> FileType(f.mimeType) == ImageFile
  {
  }
}
