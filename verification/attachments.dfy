/**
 * Attachments: the validation of an uploaded file, the name it is stored
 * under, the message that records it, listing and soft deletion. The upload
 * directory is an abstract set of stored file names.
 */
module Attachments {
  import opened Base
  import opened Records
  import opened Sorting
  import Messages

  // ---------------------------------------------------------------------
  // File names.
  // ---------------------------------------------------------------------

  /** Index of the last occurrence of `c` in `s`. */
  function LastIndexOf(s: string, c: char): (r: Option<nat>)
    ensures r.Some? ==> r.value < |s| && s[r.value] == c && forall k :: r.value < k < |s| ==> s[k] != c
    ensures r.None? ==> forall k :: 0 <= k < |s| ==> s[k] != c
  {
    if s == [] then None
    else if s[|s| - 1] == c then Some(|s| - 1)
    else LastIndexOf(s[..|s| - 1], c)
  }

  /** The last path segment. */
  function BaseName(path: string): (b: string)
    ensures forall k :: 0 <= k < |b| ==> b[k] != '/'
    ensures |b| <= |path| && b == path[|path| - |b|..]
  {
    match LastIndexOf(path, '/')
    case None => path
    case Some(i) => path[i + 1..]
  }

  /**
   * `path.extname`: from the last dot of the last segment to its end; empty
   * when the segment has no dot, starts with its only dot, or is `..`.
   */
  function Extname(name: string): (ext: string)
    ensures ext == [] || (ext[0] == '.' && forall k :: 1 <= k < |ext| ==> ext[k] != '.' && ext[k] != '/')
    ensures |ext| <= |name| && ext == name[|name| - |ext|..]
  {
    var base := BaseName(name);
    match LastIndexOf(base, '.')
    case None => ""
    case Some(i) => if i == 0 || base == ".." then "" else base[i..]
  }

  /** Appending an extension to a stem without slashes makes it the name's extension. */
  lemma ExtnameOfStem(stem: string, ext: string)
    requires stem != [] && forall k :: 0 <= k < |stem| ==> stem[k] != '/'
    requires ext == [] || (ext[0] == '.' && forall k :: 1 <= k < |ext| ==> ext[k] != '.' && ext[k] != '/')
    requires ext != [] ==> stem + ext != ".."
    requires ext == [] ==> forall k :: 0 <= k < |stem| ==> stem[k] != '.'
    ensures Extname(stem + ext) == ext
  {
    var name := stem + ext;
    assert LastIndexOf(name, '/').None? by {
      forall k | 0 <= k < |name| ensures name[k] != '/' {
        if k >= |stem| {
          assert name[k] == ext[k - |stem|];
        }
      }
    }
    assert BaseName(name) == name;
    if ext == [] {
      assert name == stem;
    } else {
      var i := LastIndexOf(name, '.');
      assert name[|stem|] == '.';
      assert i.Some? && i.value == |stem| by {
        forall k | |stem| < k < |name| ensures name[k] != '.' {
          assert name[k] == ext[k - |stem|];
        }
      }
      assert name[|stem|..] == ext;
    }
  }

  // ---------------------------------------------------------------------
  // Validation.
  // ---------------------------------------------------------------------

  /** What the upload middleware hands over: the client's file name, its MIME type and size in bytes. */
  datatype UploadedFile = UploadedFile(originalName: string, mimetype: string, size: nat)

  const MaxFileSize: nat := 50 * 1024 * 1024

  function AllowedMimeTypes(t: AttachmentType): seq<string> {
    match t
    case ImageFile => ["image/jpeg", "image/png", "image/gif", "image/webp", "image/svg+xml"]
    case DocumentFile => ["application/pdf", "application/msword",
                          "application/vnd.openxmlformats-officedocument.wordprocessingml.document",
                          "application/vnd.ms-excel",
                          "application/vnd.openxmlformats-officedocument.spreadsheetml.sheet",
                          "text/plain", "text/csv", "application/json", "application/xml"]
    case AudioFile => ["audio/mpeg", "audio/wav", "audio/webm", "audio/ogg", "audio/mp4"]
    case VideoFile => ["video/mp4", "video/webm", "video/ogg", "video/quicktime"]
    case OtherFile => []
  }

  const ForbiddenExtensions: seq<string> := [".exe", ".bat", ".cmd", ".sh", ".ps1", ".dll"]

  /** Every type but `other` has a MIME whitelist. */
  predicate MimeAllowed(f: UploadedFile, t: AttachmentType) {
    t == OtherFile || f.mimetype in AllowedMimeTypes(t)
  }

  /** The extension, lower-cased, is one of the executable kinds. */
  predicate ExtensionForbidden(originalName: string) {
    Lower(Extname(originalName)) in ForbiddenExtensions
  }

  const FileTooLarge := "File too large. Maximum size is 50MB"
  const SecurityRejection := "This file type is not allowed for security reasons"

  function InvalidType(t: AttachmentType): string {
    "Invalid file type. Allowed types for " + AttachmentTypeName(t) + ": " + Join(AllowedMimeTypes(t), ", ")
  }

  /** `validateFile`: size, then MIME type, then extension. */
  function ValidateFile(f: UploadedFile, t: AttachmentType): (r: Result<()>)
    ensures r.Ok? <==> f.size <= MaxFileSize && MimeAllowed(f, t) && !ExtensionForbidden(f.originalName)
    ensures f.size > MaxFileSize ==> r == Err(BadRequest(FileTooLarge))
    ensures f.size <= MaxFileSize && !MimeAllowed(f, t) ==> r == Err(BadRequest(InvalidType(t)))
    ensures f.size <= MaxFileSize && MimeAllowed(f, t) && ExtensionForbidden(f.originalName) ==>
      r == Err(BadRequest(SecurityRejection))
  {
    if f.size > MaxFileSize then Err(BadRequest(FileTooLarge))
    else if !MimeAllowed(f, t) then Err(BadRequest(InvalidType(t)))
    else if ExtensionForbidden(f.originalName) then Err(BadRequest(SecurityRejection))
    else Ok(())
  }

  /** The extension check ignores case and applies to `other` files too. */
  lemma UpperCaseExecutableRejected()
    ensures ValidateFile(UploadedFile("SETUP.EXE", "application/octet-stream", 1), OtherFile)
            == Err(BadRequest(SecurityRejection))
  {
    UpperCaseExeForbidden();
  }

  /** Every executable extension is a dot and at least two further characters, none of them a dot or slash. */
  lemma ForbiddenShape(low: string)
    requires low in ForbiddenExtensions
    ensures |low| >= 3 && low[0] == '.'
    ensures forall k :: 1 <= k < |low| ==> low[k] != '.' && low[k] != '/'
  {
    assert low == ".exe" || low == ".bat" || low == ".cmd" || low == ".sh" || low == ".ps1" || low == ".dll";
  }

  /** A name that lower-cases to an executable extension has the shape of an extension itself. */
  lemma ExtensionShape(ext: string)
    requires Lower(ext) in ForbiddenExtensions
    ensures |ext| >= 3 && ext[0] == '.'
    ensures forall k :: 1 <= k < |ext| ==> ext[k] != '.' && ext[k] != '/'
  {
    var low := Lower(ext);
    ForbiddenShape(low);
    assert LowerChar(ext[0]) == '.';
    forall k | 1 <= k < |ext| ensures ext[k] != '.' && ext[k] != '/' {
      assert LowerChar(ext[k]) == low[k];
    }
  }

  /**
   * Whatever its case, a name ending in an executable extension is refused
   * once its size and MIME type have passed, for every attachment type.
   */
  lemma ExecutableRejected(stem: string, ext: string, mimetype: string, size: nat, t: AttachmentType)
    requires stem != [] && forall k :: 0 <= k < |stem| ==> stem[k] != '/'
    requires Lower(ext) in ForbiddenExtensions
    requires size <= MaxFileSize && MimeAllowed(UploadedFile(stem + ext, mimetype, size), t)
    ensures ValidateFile(UploadedFile(stem + ext, mimetype, size), t) == Err(BadRequest(SecurityRejection))
  {
    ExtensionShape(ext);
    assert |stem + ext| >= 4;
    ExtnameOfStem(stem, ext);
  }

  /** `SETUP.EXE` has the extension `.exe` once lower-cased. */
  lemma UpperCaseExeForbidden()
    ensures ExtensionForbidden("SETUP.EXE")
  {
    assert Extname("SETUP.EXE") == ".EXE" by {
      assert "SETUP" + ".EXE" == "SETUP.EXE";
      ExtnameOfStem("SETUP", ".EXE");
    }
    assert Lower(".EXE") == ".exe";
    assert ForbiddenExtensions[0] == ".exe";
  }

  // ---------------------------------------------------------------------
  // Upload.
  // ---------------------------------------------------------------------

  /** The stored files, by name. */
  type Disk = set<string>

  const UploadDir := "uploads/"

  /** `<conversationId>_<timestamp>_<hash><ext>`. */
  function StoredName(conversationId: string, timestamp: nat, hash: string, originalName: string): (name: string)
    ensures IsPrefix(conversationId + "_", name)
  {
    conversationId + "_" + NatToString(timestamp) + "_" + hash + Extname(originalName)
  }

  /** The stored name keeps the original file's extension. */
  lemma StoredNameKeepsExtension(conversationId: string, timestamp: nat, hash: string, originalName: string)
    requires forall k :: 0 <= k < |conversationId| ==> conversationId[k] != '/' && conversationId[k] != '.'
    requires forall k :: 0 <= k < |hash| ==> hash[k] != '/' && hash[k] != '.'
    ensures Extname(StoredName(conversationId, timestamp, hash, originalName)) == Extname(originalName)
  {
    var stem := conversationId + "_" + NatToString(timestamp) + "_" + hash;
    var digits := NatToString(timestamp);
    forall k | 0 <= k < |stem| ensures stem[k] != '/' && stem[k] != '.' {
      if k < |conversationId| {
        assert stem[k] == conversationId[k];
      } else if k == |conversationId| {
      } else if k < |conversationId| + 1 + |digits| {
        assert stem[k] == digits[k - |conversationId| - 1];
        assert IsDigit(digits[k - |conversationId| - 1]);
      } else if k == |conversationId| + 1 + |digits| {
      } else {
        assert stem[k] == hash[k - |conversationId| - 2 - |digits|];
      }
    }
    assert stem[|conversationId|] == '_';
    assert stem + Extname(originalName) != ".." by {
      assert stem[|conversationId|] != '.';
    }
    ExtnameOfStem(stem, Extname(originalName));
  }

  function AttachmentUrl(filename: string): string { "/api/attachments/" + filename }

  function ThumbnailUrl(filename: string): string { "/api/attachments/thumb/" + filename }

  datatype AttachmentResponse = AttachmentResponse(
    id: string,
    conversationId: string,
    messageId: string,
    filename: string,
    originalName: string,
    mimetype: string,
    size: nat,
    attachmentType: AttachmentType,
    url: string,
    thumbnailUrl: Option<string>,
    uploadedAt: Time,
    uploadedBy: string)

  /** The document stored for an upload. */
  function AttachmentContent(f: UploadedFile, t: AttachmentType, filename: string, now: Time): (c: Content)
    ensures c.kind == Some("attachment") && c.status == Some(Sent) && !c.deleted
    ensures c.attachment == Some(AttachmentInfo(t, filename, f.originalName, f.mimetype, f.size,
                                                UploadDir + filename, AttachmentUrl(filename), now))
  {
    Content(Some("attachment"), None, None, Some(Sent), None, None, None, None, None, None, None,
            Some(AttachmentInfo(t, filename, f.originalName, f.mimetype, f.size, UploadDir + filename,
                                AttachmentUrl(filename), now)),
            false, None)
  }

  /**
   * `uploadAttachment`. `now` is the clock, `hash` the random part of the
   * name, `newId` the message id the store assigns and `persisted` whether
   * writing the file and the record succeeded. On failure the file is
   * removed again. Returns the outcome and the resulting disk.
   */
  function UploadAttachment(st: Store, disk: Disk, f: UploadedFile, conversationId: string, userId: string,
                            t: AttachmentType, description: Option<string>, now: nat, hash: string,
                            newId: string, persisted: bool): (r: (Result<(Store, AttachmentResponse)>, Disk))
    ensures FindConversation(st, conversationId).None? ==>
      r == (Err(NotFound("Conversation not found")), disk)
    ensures FindConversation(st, conversationId).Some? && ValidateFile(f, t).Err? ==>
      r == (Err(ValidateFile(f, t).error), disk)
    ensures var name := StoredName(conversationId, now, hash, f.originalName);
      FindConversation(st, conversationId).Some? && ValidateFile(f, t).Ok? && !persisted ==>
        r == (Err(BadRequest("Failed to upload attachment")), disk - {name})
    ensures FindConversation(st, conversationId).Some? && ValidateFile(f, t).Ok? && persisted ==> r.0.Ok?
    ensures r.0.Ok? ==>
      var name := StoredName(conversationId, now, hash, f.originalName);
      var (st', resp) := r.0.value;
      && FindConversation(st, conversationId).Some? && ValidateFile(f, t).Ok? && persisted
      && r.1 == disk + {name}
      && |st'.messages| == |st.messages| + 1
      && st' == st.(messages := st.messages + [st'.messages[|st.messages|]])
      && var m := st'.messages[|st.messages|];
      && m.id == newId && m.conversationId == conversationId && m.senderId == Some(userId)
      && m.senderType == "client" && m.createdAt == now
      && m.contentText == OrElse(description, "Uploaded " + AttachmentTypeName(t) + ": " + f.originalName)
      && m.content == AttachmentContent(f, t, name, now)
      && resp.filename == name && resp.url == AttachmentUrl(name) && resp.messageId == newId
      && resp.uploadedBy == userId && resp.size == f.size
      && (resp.thumbnailUrl.Some? <==> t == ImageFile)
      && (resp.thumbnailUrl.Some? ==> resp.thumbnailUrl.value == ThumbnailUrl(name))
  {
    if FindConversation(st, conversationId).None? then (Err(NotFound("Conversation not found")), disk)
    else if ValidateFile(f, t).Err? then (Err(ValidateFile(f, t).error), disk)
    else
      var name := StoredName(conversationId, now, hash, f.originalName);
      if !persisted then (Err(BadRequest("Failed to upload attachment")), disk - {name})
      else
        var text := OrElse(description, "Uploaded " + AttachmentTypeName(t) + ": " + f.originalName);
        var m := Message(newId, conversationId, Some(userId), "client", text,
                         AttachmentContent(f, t, name, now), None, None, now);
        var resp := AttachmentResponse(newId, conversationId, newId, name, f.originalName, f.mimetype, f.size, t,
                                       AttachmentUrl(name), if t == ImageFile then Some(ThumbnailUrl(name)) else None,
                                       now, userId);
        (Ok((st.(messages := st.messages + [m]), resp)), disk + {name})
  }

  // ---------------------------------------------------------------------
  // Listing and deletion.
  // ---------------------------------------------------------------------

  predicate IsAttachment(m: Message) {
    m.content.kind == Some("attachment")
  }

  predicate OfType(m: Message, t: Option<AttachmentType>) {
    t.None? || (m.content.attachment.Some? && m.content.attachment.value.attachmentType == t.value)
  }

  /** The attachment messages of a conversation, optionally of one type, newest first. */
  function AttachmentMessages(st: Store, conversationId: string, t: Option<AttachmentType>): (r: seq<Message>)
    ensures forall m :: m in r <==>
      m in st.messages && m.conversationId == conversationId && IsAttachment(m) && OfType(m, t)
    ensures forall i, j :: 0 <= i < j < |r| ==> r[i].createdAt >= r[j].createdAt
  {
    var matching := Filter((m: Message) => m.conversationId == conversationId && IsAttachment(m) && OfType(m, t),
                           st.messages);
    var r := SortBy(matching, NegCreatedAt);
    forall m ensures m in r <==> m in matching {
      SortByMembers(matching, NegCreatedAt, m);
    }
    assert forall i, j :: 0 <= i < j < |r| ==> NegCreatedAt(r[i]) <= NegCreatedAt(r[j]);
    r
  }

  /** One listed attachment; `details` is absent for a document that only claims to be an attachment. */
  datatype ListedAttachment = ListedAttachment(
    id: string,
    conversationId: string,
    details: Option<AttachmentInfo>,
    thumbnailUrl: Option<string>,
    uploadedAt: Time,
    uploadedBy: string)

  function Listing(m: Message): (a: ListedAttachment)
    ensures a.id == m.id && a.details == m.content.attachment && a.uploadedAt == m.createdAt
    ensures a.thumbnailUrl.Some? <==> a.details.Some? && a.details.value.attachmentType == ImageFile
  {
    var info := m.content.attachment;
    ListedAttachment(m.id, m.conversationId, info,
                     if info.Some? && info.value.attachmentType == ImageFile then Some(ThumbnailUrl(info.value.filename)) else None,
                     m.createdAt, OrElse(m.senderId, ""))
  }

  /** `listAttachments`. */
  function ListAttachments(st: Store, conversationId: string, t: Option<AttachmentType>): (r: seq<ListedAttachment>)
    ensures |r| == |AttachmentMessages(st, conversationId, t)|
    ensures forall i :: 0 <= i < |r| ==> r[i] == Listing(AttachmentMessages(st, conversationId, t)[i])
  {
    Map(Listing, AttachmentMessages(st, conversationId, t))
  }

  /** A freshly uploaded file is listed, under its type and without a type filter. */
  lemma UploadedIsListed(st: Store, disk: Disk, f: UploadedFile, conversationId: string, userId: string,
                         t: AttachmentType, description: Option<string>, now: nat, hash: string, newId: string)
    requires UploadAttachment(st, disk, f, conversationId, userId, t, description, now, hash, newId, true).0.Ok?
    ensures var st' := UploadAttachment(st, disk, f, conversationId, userId, t, description, now, hash, newId, true).0.value.0;
      var m := st'.messages[|st.messages|];
      m in AttachmentMessages(st', conversationId, Some(t)) && m in AttachmentMessages(st', conversationId, None)
  {
    var st' := UploadAttachment(st, disk, f, conversationId, userId, t, description, now, hash, newId, true).0.value.0;
    var m := st'.messages[|st.messages|];
    var name := StoredName(conversationId, now, hash, f.originalName);
    assert m.content == AttachmentContent(f, t, name, now);
    assert m in st'.messages;
    assert IsAttachment(m) && OfType(m, Some(t)) && OfType(m, None);
  }

  /** `deleteAttachment`: only the sender; the document is kept and marked deleted. */
  function DeleteAttachment(st: Store, messageId: string, userId: string, now: Time): (r: Result<Store>)
    ensures FindMessage(st, messageId).None? ==> r == Err(NotFound("Attachment not found"))
    ensures FindMessage(st, messageId).Some? && FindMessage(st, messageId).value.senderId != Some(userId) ==>
      r == Err(BadRequest("You can only delete your own attachments"))
    ensures r.Ok? <==> FindMessage(st, messageId).Some? && FindMessage(st, messageId).value.senderId == Some(userId)
    ensures r.Ok? ==>
      var m := FindMessage(st, messageId).value;
      && FindMessage(r.value, messageId) ==
           Some(m.(contentText := "[Attachment deleted]", content := m.content.(deleted := true, deletedAt := Some(now))))
      && r.value == st.(messages := r.value.messages)
      && |r.value.messages| == |st.messages|
      && forall i :: 0 <= i < |st.messages| && st.messages[i].id != messageId ==> r.value.messages[i] == st.messages[i]
  {
    match FindMessage(st, messageId)
    case None => Err(NotFound("Attachment not found"))
    case Some(m) =>
      if m.senderId != Some(userId) then Err(BadRequest("You can only delete your own attachments"))
      else
        var m' := m.(contentText := "[Attachment deleted]", content := m.content.(deleted := true, deletedAt := Some(now)));
        PutMessageFind(st, m');
        Ok(PutMessage(st, m'))
  }

  /**
   * A deleted attachment no longer appears in a default read of its
   * conversation, with the corrected read of `GetConversationMessages`; the
   * read as written still returns it (`Messages.AsWrittenReturnsDeleted`).
   */
  lemma DeletedAttachmentHidden(st: Store, messageId: string, userId: string, now: Time, conversationId: string)
    requires DeleteAttachment(st, messageId, userId, now).Ok?
    ensures forall m :: m in Messages.GetConversationMessages(DeleteAttachment(st, messageId, userId, now).value, conversationId, None) ==>
              m.id != messageId
  {
    var st' := DeleteAttachment(st, messageId, userId, now).value;
    forall m | m in Messages.GetConversationMessages(st', conversationId, None) ensures m.id != messageId {
      var i :| 0 <= i < |st'.messages| && st'.messages[i] == m;
      assert !m.content.deleted;
    }
  }
}
