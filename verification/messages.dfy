/**
 * Message persistence: validating and saving a message with its JSON
 * document, delivery-status stamps, edits, reactions, paged reads and the
 * basic transcript of a conversation with its metrics.
 */
module Messages {
  import opened Base
  import opened Records
  import opened Sorting
  import opened Tally

  // ---------------------------------------------------------------------
  // The save request.
  // ---------------------------------------------------------------------

  datatype SenderType = ClientSender | AgentSender | SystemSender

  function SenderTypeName(s: SenderType): string {
    match s
    case ClientSender => "client"
    case AgentSender => "agent"
    case SystemSender => "system"
  }

  function ParseSenderType(name: string): (r: Option<SenderType>)
    ensures r.Some? ==> SenderTypeName(r.value) == name
  {
    if name == "client" then Some(ClientSender)
    else if name == "agent" then Some(AgentSender)
    else if name == "system" then Some(SystemSender)
    else None
  }

  /** The sender types are exactly client, agent and system, with distinct names. */
  lemma SenderTypeNamesRoundTrip(s: SenderType)
    ensures ParseSenderType(SenderTypeName(s)) == Some(s)
  {
  }

  predicate IsHex(c: char) {
    IsDigit(c) || 'a' <= c <= 'f' || 'A' <= c <= 'F'
  }

  predicate IsUuidDash(i: int) {
    i == 8 || i == 13 || i == 18 || i == 23
  }

  /** `8-4-4-4-12` hexadecimal groups, either case. */
  predicate IsUuid(s: string) {
    |s| == 36 && forall i :: 0 <= i < |s| ==> if IsUuidDash(i) then s[i] == '-' else IsHex(s[i])
  }

  /** The request body before validation: enumerations are still strings. */
  datatype SaveMessageBody = SaveMessageBody(
    conversationId: string,
    senderId: string,
    senderType: string,
    kind: string,
    content: string,
    metadata: Option<Metadata>,
    status: Option<string>,
    replyToId: Option<string>,
    reactions: Option<Reactions>,
    mentions: Option<seq<string>>)

  /** A validated save request. */
  datatype SaveMessageDto = SaveMessageDto(
    conversationId: string,
    senderId: string,
    senderType: SenderType,
    kind: MessageType,
    content: string,
    metadata: Option<Metadata>,
    status: Option<MessageStatus>,
    replyToId: Option<string>,
    reactions: Option<Reactions>,
    mentions: Option<seq<string>>)

  /**
   * The field rules of the save request: the conversation id is a UUID,
   * sender id and content are non-empty, the sender type, message type and
   * (when present) status belong to their enumerations. `mentions` is
   * declared as an object, and an array is not one, so a body that gives
   * mentions is refused.
   */
  function ValidateSaveMessage(b: SaveMessageBody): (r: Result<SaveMessageDto>)
    ensures r.Ok? <==>
      && IsUuid(b.conversationId) && b.senderId != "" && b.content != ""
      && ParseSenderType(b.senderType).Some? && ParseType(b.kind).Some?
      && (b.status.Some? ==> ParseMessageStatus(b.status.value).Some?)
      && b.mentions.None?
    ensures r.Err? ==> r.error.BadRequest?
    ensures r.Ok? ==>
      var d := r.value;
      && d.conversationId == b.conversationId && d.senderId == b.senderId && d.content == b.content
      && SenderTypeName(d.senderType) == b.senderType && TypeName(d.kind) == b.kind
      && d.metadata == b.metadata && d.replyToId == b.replyToId
      && d.reactions == b.reactions && d.mentions == b.mentions
      && (d.status.Some? <==> b.status.Some?)
      && (d.status.Some? ==> MessageStatusName(d.status.value) == b.status.value)
  {
    if !IsUuid(b.conversationId) then Err(BadRequest("conversationId must be a UUID"))
    else if b.senderId == "" then Err(BadRequest("senderId should not be empty"))
    else if ParseSenderType(b.senderType).None? then Err(BadRequest("senderType must be one of client, agent, system"))
    else if ParseType(b.kind).None? then Err(BadRequest("type must be a valid enum value"))
    else if b.content == "" then Err(BadRequest("content should not be empty"))
    else if b.status.Some? && ParseMessageStatus(b.status.value).None? then Err(BadRequest("status must be a valid enum value"))
    else if b.mentions.Some? then Err(BadRequest("mentions must be an object"))
    else
      Ok(SaveMessageDto(b.conversationId, b.senderId, ParseSenderType(b.senderType).value,
                        ParseType(b.kind).value, b.content, b.metadata,
                        if b.status.Some? then ParseMessageStatus(b.status.value) else None,
                        b.replyToId, b.reactions, b.mentions))
  }

  /**
   * A request written back as a body validates to itself exactly when it
   * names no mentions: every request validation can produce comes back.
   */
  lemma ValidateSaveMessageRoundTrip(d: SaveMessageDto)
    requires IsUuid(d.conversationId) && d.senderId != "" && d.content != ""
    ensures var r := ValidateSaveMessage(SaveMessageBody(
              d.conversationId, d.senderId, SenderTypeName(d.senderType), TypeName(d.kind), d.content,
              d.metadata, if d.status.Some? then Some(MessageStatusName(d.status.value)) else None,
              d.replyToId, d.reactions, d.mentions));
      (r.Ok? <==> d.mentions.None?) && (d.mentions.None? ==> r == Ok(d))
  {
    SenderTypeNamesRoundTrip(d.senderType);
    TypeNamesRoundTrip(d.kind);
    if d.status.Some? {
      MessageStatusNamesRoundTrip(d.status.value);
    }
  }

  // ---------------------------------------------------------------------
  // Saving.
  // ---------------------------------------------------------------------

  /** Events published to in-process listeners. */
  datatype ServiceEvent =
    | MessageCreated(conversationId: string, messageId: string)
    | StatusUpdated(messageId: string, status: MessageStatus, byUser: Option<string>)
    | MessageEdited(messageId: string, newContent: string, editedBy: string)
    | ReactionAdded(messageId: string, emoji: string, userId: string)
    | ReactionRemoved(messageId: string, emoji: string, userId: string)

  const PreviewLength: nat := 100

  /** The reply reference: only for a given id of an existing message, previewing its first 100 characters. */
  function ReplyFor(st: Store, replyToId: Option<string>): (r: Option<ReplyRef>)
    ensures r.Some? <==> Given(replyToId) && FindMessage(st, replyToId.value).Some?
    ensures r.Some? ==>
      var text := FindMessage(st, replyToId.value).value.contentText;
      && r.value.messageId == replyToId.value
      && IsPrefixOf(r.value.preview, text)
      && |r.value.preview| == if |text| < PreviewLength then |text| else PreviewLength
  {
    if !Given(replyToId) then None
    else
      match FindMessage(st, replyToId.value)
      case None => None
      case Some(m) => Some(ReplyRef(replyToId.value, Take(m.contentText, PreviewLength)))
  }

  /** The document stored with a new message. */
  function InitialContent(dto: SaveMessageDto, reply: Option<ReplyRef>, now: Time): (c: Content)
    ensures c.kind == Some(TypeName(dto.kind)) && c.body == Some(dto.content) && c.metadata == dto.metadata
    ensures c.status == Some(if dto.status.Some? then dto.status.value else Sent)
    ensures c.reactions == Some(if dto.reactions.Some? then dto.reactions.value else map[])
    ensures c.mentions == Some(if dto.mentions.Some? then dto.mentions.value else [])
    ensures c.timestamps == Some(Timestamps(now, None, None)) && c.version == Some(1)
    ensures c.replyTo == reply && c.edited.None? && !c.deleted
  {
    Content(Some(TypeName(dto.kind)), Some(dto.content), dto.metadata,
            Some(dto.status.GetOr(Sent)), reply, Some(dto.reactions.GetOr(map[])),
            Some(dto.mentions.GetOr([])), None, Some(Timestamps(now, None, None)), Some(1),
            None, None, false, None)
  }

  /** The `attachments` column: one entry, only when the metadata names a file. */
  function AttachmentsFor(metadata: Option<Metadata>): (r: Option<seq<FileRef>>)
    ensures r.Some? <==> metadata.Some? && Given(metadata.value.fileName)
    ensures r.Some? ==> r.value == [FileRef(metadata.value.fileName.value, metadata.value.fileSize, metadata.value.mimeType)]
  {
    if metadata.Some? && Given(metadata.value.fileName) then
      Some([FileRef(metadata.value.fileName.value, metadata.value.fileSize, metadata.value.mimeType)])
    else None
  }

  /** The `audioUrl` column: the file name of an audio message, null otherwise. */
  function AudioUrlFor(kind: MessageType, metadata: Option<Metadata>): (r: Option<string>)
    ensures kind != Audio ==> r.None?
    ensures kind == Audio && metadata.Some? ==> r == metadata.value.fileName
    ensures metadata.None? ==> r.None?
  {
    if kind == Audio && metadata.Some? then metadata.value.fileName else None
  }

  /** A waiting conversation is assigned to the first agent who writes in it. */
  predicate AutoAssigns(c: Conversation, dto: SaveMessageDto) {
    c.status == Waiting && dto.senderType == AgentSender
  }

  /**
   * `saveMessage`. `newId` is the id the store assigns; `created` is false
   * when the insert fails, which is rethrown before anything else happens.
   */
  function SaveMessage(st: Store, dto: SaveMessageDto, newId: string, now: Time, created: bool)
    : (r: Result<(Store, Message, seq<ServiceEvent>)>)
    ensures FindConversation(st, dto.conversationId).None? ==>
      r == Err(NotFound("Conversation " + dto.conversationId + " not found"))
    ensures FindConversation(st, dto.conversationId).Some? ==> (r.Ok? <==> created)
    ensures r.Err? && FindConversation(st, dto.conversationId).Some? ==> r.error.StoreFailure?
    ensures r.Ok? ==>
      var st' := r.value.0;
      var m := r.value.1;
      var c := FindConversation(st, dto.conversationId).value;
      && m.id == newId && m.conversationId == dto.conversationId && m.senderId == Some(dto.senderId)
      && m.senderType == SenderTypeName(dto.senderType) && m.contentText == dto.content && m.createdAt == now
      && m.content == InitialContent(dto, ReplyFor(st, dto.replyToId), now)
      && m.attachments == AttachmentsFor(dto.metadata) && m.audioUrl == AudioUrlFor(dto.kind, dto.metadata)
      && st'.messages == st.messages + [m]
      && r.value.2 == [MessageCreated(dto.conversationId, newId)]
      && (AutoAssigns(c, dto) ==>
            FindConversation(st', dto.conversationId) == Some(c.(status := Assigned, agentUserId := Some(dto.senderId))))
      && (!AutoAssigns(c, dto) ==> st'.conversations == st.conversations)
      && st' == st.(messages := st'.messages, conversations := st'.conversations)
  {
    match FindConversation(st, dto.conversationId)
    case None => Err(NotFound("Conversation " + dto.conversationId + " not found"))
    case Some(c) =>
      if !created then Err(StoreFailure("message could not be created"))
      else
        var m := Message(newId, dto.conversationId, Some(dto.senderId), SenderTypeName(dto.senderType),
                         dto.content, InitialContent(dto, ReplyFor(st, dto.replyToId), now),
                         AttachmentsFor(dto.metadata), AudioUrlFor(dto.kind, dto.metadata), now);
        var withMessage := st.(messages := st.messages + [m]);
        if AutoAssigns(c, dto) then
          (var handedOver := c.(status := Assigned, agentUserId := Some(dto.senderId));
           assert FindConversation(withMessage, c.id).Some?;
           PutConversationFind(withMessage, handedOver);
           Ok((PutConversation(withMessage, handedOver), m, [MessageCreated(dto.conversationId, newId)])))
        else
          Ok((withMessage, m, [MessageCreated(dto.conversationId, newId)]))
  }

  /** The fields every stored message document carries once saved. */
  predicate Complete(c: Content) {
    c.kind.Some? && c.body.Some? && c.status.Some? && c.timestamps.Some? && c.version.Some?
  }

  /** A saved message's document is complete, and the agent rule only ever assigns. */
  lemma SavedMessageComplete(st: Store, dto: SaveMessageDto, newId: string, now: Time)
    requires FindConversation(st, dto.conversationId).Some?
    ensures var r := SaveMessage(st, dto, newId, now, true);
      r.Ok? && Complete(r.value.1.content)
      && forall c :: c in r.value.0.conversations && c !in st.conversations ==>
           c.status == Assigned && c.agentUserId == Some(dto.senderId)
  {
  }

  // ---------------------------------------------------------------------
  // Delivery status.
  // ---------------------------------------------------------------------

  /**
   * Set the status and stamp the matching time. A document without a
   * `timestamps` record cannot take a delivered or read stamp: the write
   * fails with a type error.
   */
  function StampStatus(c: Content, status: MessageStatus, now: Time): (r: Result<Content>)
    ensures r.Err? <==> (status == Delivered || status == Read) && c.timestamps.None?
    ensures r.Err? ==> r.error.TypeError?
    ensures r.Ok? ==> r.value.status == Some(status)
    ensures r.Ok? && status == Delivered ==> r.value.timestamps == Some(c.timestamps.value.(delivered := Some(now)))
    ensures r.Ok? && status == Read ==> r.value.timestamps == Some(c.timestamps.value.(read := Some(now)))
    ensures r.Ok? && status != Delivered && status != Read ==> r.value.timestamps == c.timestamps
    ensures r.Ok? ==> r.value == c.(status := r.value.status, timestamps := r.value.timestamps)
  {
    if status == Delivered then
      if c.timestamps.None? then Err(TypeError("Cannot set properties of undefined (setting 'delivered')"))
      else Ok(c.(status := Some(status), timestamps := Some(c.timestamps.value.(delivered := Some(now)))))
    else if status == Read then
      if c.timestamps.None? then Err(TypeError("Cannot set properties of undefined (setting 'read')"))
      else Ok(c.(status := Some(status), timestamps := Some(c.timestamps.value.(read := Some(now)))))
    else Ok(c.(status := Some(status)))
  }

  function MessageNotFound(messageId: string): Fault {
    NotFound("Message " + messageId + " not found")
  }

  /** `updateMessageStatus`. */
  function UpdateMessageStatus(st: Store, messageId: string, status: MessageStatus, userId: Option<string>, now: Time)
    : (r: Result<(Store, seq<ServiceEvent>)>)
    ensures FindMessage(st, messageId).None? ==> r == Err(MessageNotFound(messageId))
    ensures FindMessage(st, messageId).Some? ==>
      var m := FindMessage(st, messageId).value;
      && (r.Err? <==> StampStatus(m.content, status, now).Err?)
      && (r.Ok? ==>
            && FindMessage(r.value.0, messageId) == Some(m.(content := StampStatus(m.content, status, now).value))
            && r.value.0 == st.(messages := r.value.0.messages)
            && r.value.1 == [StatusUpdated(messageId, status, userId)])
  {
    match FindMessage(st, messageId)
    case None => Err(MessageNotFound(messageId))
    case Some(m) =>
      var content :- StampStatus(m.content, status, now);
      var m' := m.(content := content);
      PutMessageFind(st, m');
      Ok((PutMessage(st, m'), [StatusUpdated(messageId, status, userId)]))
  }

  /** Saved messages can always move on to delivered and read, and keep what was stamped before. */
  lemma DeliveredThenRead(c: Content, t1: Time, t2: Time)
    requires Complete(c)
    ensures StampStatus(c, Delivered, t1).Ok?
    ensures var d := StampStatus(c, Delivered, t1).value;
      StampStatus(d, Read, t2).Ok?
      && StampStatus(d, Read, t2).value.timestamps == Some(Timestamps(c.timestamps.value.sent, Some(t1), Some(t2)))
      && Complete(StampStatus(d, Read, t2).value)
  {
  }

  // ---------------------------------------------------------------------
  // Editing.
  // ---------------------------------------------------------------------

  /** `(version || 1) + 1`: a missing or zero version counts as 1. */
  function NextVersion(v: Option<int>): (n: int)
    ensures v.Some? && v.value != 0 ==> n == v.value + 1
    ensures v.None? || v.value == 0 ==> n == 2
  {
    if v.Some? && v.value != 0 then v.value + 1 else 2
  }

  function EditContent(c: Content, newContent: string, editedBy: string, now: Time): (d: Content)
    ensures d.body == Some(newContent) && d.edited == Some(Stamp(now, editedBy))
    ensures d.version == Some(NextVersion(c.version))
    ensures d == c.(body := d.body, edited := d.edited, version := d.version)
  {
    c.(body := Some(newContent), edited := Some(Stamp(now, editedBy)), version := Some(NextVersion(c.version)))
  }

  /** `editMessage`: only the original sender may edit. */
  function EditMessage(st: Store, messageId: string, newContent: string, editedBy: string, now: Time)
    : (r: Result<(Store, seq<ServiceEvent>)>)
    ensures FindMessage(st, messageId).None? ==> r == Err(MessageNotFound(messageId))
    ensures FindMessage(st, messageId).Some? && FindMessage(st, messageId).value.senderId != Some(editedBy) ==>
      r == Err(BadRequest("You can only edit your own messages"))
    ensures r.Ok? <==> FindMessage(st, messageId).Some? && FindMessage(st, messageId).value.senderId == Some(editedBy)
    ensures r.Ok? ==>
      var m := FindMessage(st, messageId).value;
      && FindMessage(r.value.0, messageId) ==
           Some(m.(contentText := newContent, content := EditContent(m.content, newContent, editedBy, now)))
      && r.value.0 == st.(messages := r.value.0.messages)
      && r.value.1 == [MessageEdited(messageId, newContent, editedBy)]
  {
    match FindMessage(st, messageId)
    case None => Err(MessageNotFound(messageId))
    case Some(m) =>
      if m.senderId != Some(editedBy) then Err(BadRequest("You can only edit your own messages"))
      else
        var m' := m.(contentText := newContent, content := EditContent(m.content, newContent, editedBy, now));
        PutMessageFind(st, m');
        Ok((PutMessage(st, m'), [MessageEdited(messageId, newContent, editedBy)]))
  }

  /** Each edit after the first raises the version by exactly one; the first yields at least 2 from a saved message. */
  lemma EditsCountVersions(c: Content, a: string, b: string, who: string, t1: Time, t2: Time)
    requires c.version.Some? && c.version.value >= 1
    ensures var once := EditContent(c, a, who, t1);
      && once.version == Some(c.version.value + 1)
      && EditContent(once, b, who, t2).version == Some(c.version.value + 2)
      && EditContent(once, b, who, t2).body == Some(b)
  {
  }

  // ---------------------------------------------------------------------
  // Reactions.
  // ---------------------------------------------------------------------

  /** The users who reacted with `emoji`, none when the emoji has no entry. */
  function Reactors(rs: Reactions, emoji: string): seq<string> {
    if emoji in rs then rs[emoji] else []
  }

  predicate NoDuplicates(s: seq<string>) {
    forall i, j :: 0 <= i < j < |s| ==> s[i] != s[j]
  }

  /** No user is listed twice under one emoji. */
  predicate ReactionsWellFormed(rs: Reactions) {
    forall e :: e in rs ==> NoDuplicates(rs[e])
  }

  /** Add `userId` under `emoji` unless it is already there, creating the entry if needed. */
  function AddReaction(rs: Reactions, emoji: string, userId: string): (r: Reactions)
    ensures emoji in r && userId in r[emoji]
    ensures r[emoji] == if userId in Reactors(rs, emoji) then Reactors(rs, emoji) else Reactors(rs, emoji) + [userId]
    ensures forall e :: e != emoji ==> (e in r <==> e in rs)
    ensures forall e :: e != emoji && e in rs ==> r[e] == rs[e]
  {
    var users := Reactors(rs, emoji);
    rs[emoji := if userId in users then users else users + [userId]]
  }

  /** Remove `userId` from `emoji`'s list, dropping the entry when it empties. */
  function RemoveReaction(rs: Reactions, emoji: string, userId: string): (r: Reactions)
    ensures emoji in r ==> userId !in r[emoji] && r[emoji] != []
    ensures emoji in r ==> emoji in rs && forall u :: u in r[emoji] <==> u in rs[emoji] && u != userId
    ensures emoji in r <==> emoji in rs && exists u :: u in rs[emoji] && u != userId
    ensures forall e :: e != emoji ==> (e in r <==> e in rs)
    ensures forall e :: e != emoji && e in rs ==> r[e] == rs[e]
  {
    if emoji in rs then
      var rest := Without(rs[emoji], userId);
      if rest == [] then
        rs - {emoji}
      else
        assert rest[0] in rs[emoji] && rest[0] != userId;
        rs[emoji := rest]
    else rs
  }

  /** `list.filter(id => id !== userId)`. */
  function Without(s: seq<string>, userId: string): (r: seq<string>)
    ensures forall u :: u in r <==> u in s && u != userId
  {
    Filter(u => u != userId, s)
  }

  lemma {:induction false} WithoutAbsent(s: seq<string>, userId: string)
    requires userId !in s
    ensures Without(s, userId) == s
  {
    if s != [] {
      WithoutAbsent(s[1..], userId);
      assert s == [s[0]] + s[1..];
    }
  }

  lemma {:induction false} WithoutKeepsNoDuplicates(s: seq<string>, userId: string)
    requires NoDuplicates(s)
    ensures NoDuplicates(Without(s, userId))
  {
    if s != [] {
      WithoutKeepsNoDuplicates(s[1..], userId);
      var rest := Without(s[1..], userId);
      assert s[0] !in s[1..] by {
        forall k | 0 <= k < |s[1..]| ensures s[1..][k] != s[0] {
          assert s[1..][k] == s[k + 1];
        }
      }
      assert s[0] !in rest;
    }
  }

  lemma AddReactionKeepsWellFormed(rs: Reactions, emoji: string, userId: string)
    requires ReactionsWellFormed(rs)
    ensures ReactionsWellFormed(AddReaction(rs, emoji, userId))
  {
    var users := Reactors(rs, emoji);
    if userId !in users {
      var added := users + [userId];
      forall i, j | 0 <= i < j < |added| ensures added[i] != added[j] {
        if j == |users| {
          assert added[i] == users[i];
        }
      }
    }
  }

  lemma RemoveReactionKeepsWellFormed(rs: Reactions, emoji: string, userId: string)
    requires ReactionsWellFormed(rs)
    ensures ReactionsWellFormed(RemoveReaction(rs, emoji, userId))
  {
    if emoji in rs {
      WithoutKeepsNoDuplicates(rs[emoji], userId);
    }
  }

  /** Reacting twice with the same emoji is the same as reacting once. */
  lemma AddReactionIdempotent(rs: Reactions, emoji: string, userId: string)
    ensures AddReaction(AddReaction(rs, emoji, userId), emoji, userId) == AddReaction(rs, emoji, userId)
  {
  }

  /** Adding a new reaction and removing it again restores the reactions. */
  lemma AddThenRemoveReaction(rs: Reactions, emoji: string, userId: string)
    requires userId !in Reactors(rs, emoji)
    requires emoji in rs ==> rs[emoji] != []
    ensures RemoveReaction(AddReaction(rs, emoji, userId), emoji, userId) == rs
  {
    var users := Reactors(rs, emoji);
    var added := AddReaction(rs, emoji, userId);
    assert added[emoji] == users + [userId];
    FilterAppend(u => u != userId, users, [userId]);
    assert Without([userId], userId) == [] by {
      assert [userId][1..] == [];
    }
    WithoutAbsent(users, userId);
    assert Without(users + [userId], userId) == users;
    var r := RemoveReaction(added, emoji, userId);
    if emoji in rs {
      assert r == rs[emoji := users];
    } else {
      assert r == added - {emoji};
    }
  }

  /** `addReaction` on a stored message; a document without reactions starts from none. */
  function AddMessageReaction(st: Store, messageId: string, emoji: string, userId: string)
    : (r: Result<(Store, seq<ServiceEvent>)>)
    ensures FindMessage(st, messageId).None? <==> r.Err?
    ensures r.Err? ==> r == Err(MessageNotFound(messageId))
    ensures r.Ok? ==>
      var m := FindMessage(st, messageId).value;
      && FindMessage(r.value.0, messageId) ==
           Some(m.(content := m.content.(reactions := Some(AddReaction(m.content.reactions.GetOr(map[]), emoji, userId)))))
      && r.value.0 == st.(messages := r.value.0.messages)
      && r.value.1 == [ReactionAdded(messageId, emoji, userId)]
  {
    match FindMessage(st, messageId)
    case None => Err(MessageNotFound(messageId))
    case Some(m) =>
      var m' := m.(content := m.content.(reactions := Some(AddReaction(m.content.reactions.GetOr(map[]), emoji, userId))));
      PutMessageFind(st, m');
      Ok((PutMessage(st, m'), [ReactionAdded(messageId, emoji, userId)]))
  }

  /**
   * `removeReaction` on a stored message. The message is rewritten and the
   * event published even when there was nothing to remove.
   */
  function RemoveMessageReaction(st: Store, messageId: string, emoji: string, userId: string)
    : (r: Result<(Store, seq<ServiceEvent>)>)
    ensures FindMessage(st, messageId).None? <==> r.Err?
    ensures r.Err? ==> r == Err(MessageNotFound(messageId))
    ensures r.Ok? ==>
      var m := FindMessage(st, messageId).value;
      && FindMessage(r.value.0, messageId) ==
           Some(if m.content.reactions.None? then m
                else m.(content := m.content.(reactions := Some(RemoveReaction(m.content.reactions.value, emoji, userId)))))
      && r.value.0 == st.(messages := r.value.0.messages)
      && r.value.1 == [ReactionRemoved(messageId, emoji, userId)]
  {
    match FindMessage(st, messageId)
    case None => Err(MessageNotFound(messageId))
    case Some(m) =>
      var m' :=
        if m.content.reactions.None? then m
        else m.(content := m.content.(reactions := Some(RemoveReaction(m.content.reactions.value, emoji, userId))));
      PutMessageFind(st, m');
      Ok((PutMessage(st, m'), [ReactionRemoved(messageId, emoji, userId)]))
  }

  // ---------------------------------------------------------------------
  // Reading a conversation's messages.
  // ---------------------------------------------------------------------

  datatype ReadOptions = ReadOptions(limit: Option<nat>, offset: Option<nat>, includeDeleted: Option<bool>)

  const DefaultPageSize: nat := 50

  /** `options?.limit || 50`. */
  function PageSize(options: Option<ReadOptions>): (n: nat)
    ensures n > 0
  {
    if options.Some? && options.value.limit.Some? && options.value.limit.value != 0 then options.value.limit.value
    else DefaultPageSize
  }

  /** `options?.offset || 0`. */
  function PageOffset(options: Option<ReadOptions>): nat {
    if options.Some? && options.value.offset.Some? then options.value.offset.value else 0
  }

  /** `!options?.includeDeleted`. */
  predicate ExcludesDeleted(options: Option<ReadOptions>) {
    !(options.Some? && options.value.includeDeleted == Some(true))
  }

  /** `skip` then `take` over a sequence. */
  function Page<T>(s: seq<T>, skip: nat, take: nat): (r: seq<T>)
    ensures |r| <= take
    ensures skip <= |s| ==> |r| == if |s| - skip < take then |s| - skip else take
    ensures skip <= |s| ==> forall i :: 0 <= i < |r| ==> r[i] == s[skip + i]
    ensures skip > |s| ==> r == []
  {
    if skip > |s| then [] else Take(s[skip..], take)
  }

  /** A page of a sorted sequence is sorted, holds only its elements, and is all of it when one page covers it from the start. */
  lemma PageOfSorted<T>(s: seq<T>, key: T -> int, skip: nat, take: nat)
    requires SortedBy(s, key)
    ensures var r := Page(s, skip, take);
      && SortedBy(r, key)
      && (forall x :: x in r ==> x in s)
      && (skip == 0 && |s| <= take ==> r == s)
  {
    var r := Page(s, skip, take);
    if skip <= |s| {
      forall i, j | 0 <= i < j < |r| ensures key(r[i]) <= key(r[j]) {
        assert r[i] == s[skip + i] && r[j] == s[skip + j];
      }
      forall x | x in r ensures x in s {
        var i :| 0 <= i < |r| && r[i] == x;
        assert s[skip + i] == x;
      }
    }
  }

  /** The conversation's messages in creation order: what the as-written read pages through. */
  function AllInOrder(st: Store, conversationId: string): (r: seq<Message>)
    ensures forall m :: m in r <==> m in st.messages && m.conversationId == conversationId
    ensures SortedBy(r, CreatedAt)
  {
    var r := SortBy(MessagesOf(st, conversationId), CreatedAt);
    forall m ensures m in r <==> m in st.messages && m.conversationId == conversationId {
      SortByMembers(MessagesOf(st, conversationId), CreatedAt, m);
    }
    r
  }

  /**
   * `getConversationMessages` as written: the deleted-message condition is
   * `equals: undefined`, which the query builder drops, so nothing is
   * excluded whatever the options say.
   */
  function GetConversationMessagesAsWritten(st: Store, conversationId: string, options: Option<ReadOptions>)
    : (r: seq<Message>)
    ensures |r| <= PageSize(options)
    ensures forall m :: m in r ==> m in st.messages && m.conversationId == conversationId
    ensures |r| == WindowSize(|AllInOrder(st, conversationId)|, PageOffset(options), PageSize(options))
    ensures forall i :: 0 <= i < |r| ==> r[i] == AllInOrder(st, conversationId)[PageOffset(options) + i]
  {
    var sorted := AllInOrder(st, conversationId);
    PageOfSorted(sorted, CreatedAt, PageOffset(options), PageSize(options));
    Page(sorted, PageOffset(options), PageSize(options))
  }

  /** A conversation with one soft-deleted message. */
  function DeletedExample(): Store {
    var c := Content(None, None, None, None, None, None, None, None, None, None, None, None, true, Some(0));
    Store([], [], [], [Message("m", "c", None, "client", "[Attachment deleted]", c, None, None, 0)], [], [], [])
  }

  /** With default options the as-written read still returns a deleted message. */
  lemma AsWrittenReturnsDeleted()
    ensures ExcludesDeleted(None)
    ensures var r := GetConversationMessagesAsWritten(DeletedExample(), "c", None);
      |r| == 1 && r[0].content.deleted
  {
    var st := DeletedExample();
    assert MessagesOf(st, "c") == st.messages;
    var sorted := AllInOrder(st, "c");
    assert |sorted| == 1 by {
      assert sorted == SortBy(st.messages, CreatedAt);
    }
    assert sorted[0] in st.messages;
  }

  /** Whether a message is listed: it belongs to the conversation and is not deleted unless asked for. */
  predicate Listed(m: Message, conversationId: string, options: Option<ReadOptions>) {
    m.conversationId == conversationId && (ExcludesDeleted(options) ==> !m.content.deleted)
  }

  function ListedBy(conversationId: string, options: Option<ReadOptions>): Message -> bool {
    (m: Message) => Listed(m, conversationId, options)
  }

  /** The messages a read lists, in creation order: what a page is cut from. */
  function ListedInOrder(st: Store, conversationId: string, options: Option<ReadOptions>): (r: seq<Message>)
    ensures forall m :: m in r <==> m in st.messages && Listed(m, conversationId, options)
    ensures SortedBy(r, CreatedAt)
    ensures |r| == |Filter(ListedBy(conversationId, options), st.messages)|
  {
    var listed := Filter(ListedBy(conversationId, options), st.messages);
    var r := SortBy(listed, CreatedAt);
    forall m ensures m in r <==> m in listed {
      SortByMembers(listed, CreatedAt, m);
    }
    r
  }

  /** `getConversationMessages` with the deleted-message filter it means to apply. */
  function GetConversationMessages(st: Store, conversationId: string, options: Option<ReadOptions>)
    : (r: seq<Message>)
    ensures |r| <= PageSize(options)
    ensures forall m :: m in r ==> m in st.messages && Listed(m, conversationId, options)
    ensures forall i, j :: 0 <= i < j < |r| ==> r[i].createdAt <= r[j].createdAt
    ensures PageOffset(options) == 0 && |Filter(ListedBy(conversationId, options), st.messages)| <= PageSize(options) ==>
      forall m :: m in st.messages && Listed(m, conversationId, options) ==> m in r
    ensures |r| == WindowSize(|ListedInOrder(st, conversationId, options)|, PageOffset(options), PageSize(options))
    ensures forall i :: 0 <= i < |r| ==> r[i] == ListedInOrder(st, conversationId, options)[PageOffset(options) + i]
  {
    var sorted := ListedInOrder(st, conversationId, options);
    PageOfSorted(sorted, CreatedAt, PageOffset(options), PageSize(options));
    Page(sorted, PageOffset(options), PageSize(options))
  }

  // ---------------------------------------------------------------------
  // The basic transcript.
  // ---------------------------------------------------------------------

  datatype SenderRef = SenderRef(id: string, name: string, senderType: string)

  /**
   * One transcript line. `deleted` is the stored document's own deletion
   * flag; the JSON output does not show it.
   */
  datatype TranscriptMessage = TranscriptMessage(
    id: string,
    timestamp: Time,
    sender: SenderRef,
    content: string,
    kind: string,
    metadata: Option<Metadata>,
    attachments: Option<seq<FileRef>>,
    deleted: bool)

  datatype TranscriptParticipant = TranscriptParticipant(
    id: string,
    name: string,
    email: string,
    role: string,
    joinedAt: Time,
    leftAt: Option<Time>,
    messageCount: nat)

  /** Counts in `messagesByType` and `messagesBySender` are in order of first appearance. */
  datatype Metrics = Metrics(
    totalMessages: nat,
    duration: int,
    averageResponseTime: int,
    firstResponseTime: int,
    resolutionTime: Option<int>,
    messagesByType: Counts<string>,
    messagesBySender: Counts<string>)

  datatype EvaluationInfo = EvaluationInfo(rating: int, comment: Option<string>, evaluatedAt: Time, evaluatedBy: string)

  datatype QueueInfo = QueueInfo(initialPosition: int, waitTime: int, assignedAt: Option<Time>, assignedTo: Option<string>)

  datatype Transcript = Transcript(
    conversationId: string,
    companyId: string,
    createdAt: Time,
    updatedAt: Time,
    status: ConversationStatus,
    participants: seq<TranscriptParticipant>,
    messages: seq<TranscriptMessage>,
    metrics: Option<Metrics>,
    generatedAt: Time,
    evaluation: Option<EvaluationInfo>,
    queueInfo: Option<QueueInfo>)

  /** `contentJson?.type || 'text'`. */
  function TypeKey(m: Message): string { OrElse(m.content.kind, "text") }

  /** `senderId || 'system'`. */
  function SenderKey(m: Message): string { OrElse(m.senderId, "system") }

  function Seconds(ms: int): int { ms / 1000 }

  /** The metrics of a conversation whose messages are `ms`, `now` standing for the current time. */
  function MetricsOf(c: Conversation, ms: seq<Message>, now: Time): (r: Metrics)
    ensures r.totalMessages == |ms|
    ensures Total(r.messagesByType) == |ms| && Total(r.messagesBySender) == |ms|
    ensures KeysUnique(r.messagesByType) && KeysUnique(r.messagesBySender)
    ensures r.resolutionTime.Some? <==> c.closedAt.Some?
    ensures var end := if c.closedAt.Some? then c.closedAt.value else now;
      r.duration * 1000 <= end - c.startedAt < r.duration * 1000 + 1000
    ensures r.resolutionTime.Some? ==> r.resolutionTime.value == r.duration
  {
    var byType := TallyOf(Map(TypeKey, ms));
    var bySender := TallyOf(Map(SenderKey, ms));
    TallyOfCounts(Map(TypeKey, ms), "");
    TallyOfCounts(Map(SenderKey, ms), "");
    var end := if c.closedAt.Some? then c.closedAt.value else now;
    Metrics(|ms|, Seconds(end - c.startedAt), 0, 0,
            if c.closedAt.Some? then Some(Seconds(end - c.startedAt)) else None,
            byType, bySender)
  }

  /** Each type and each sender is counted exactly as often as it occurs among the messages. */
  lemma MetricsCounts(c: Conversation, ms: seq<Message>, now: Time, key: string)
    ensures CountOf(MetricsOf(c, ms, now).messagesByType, key) == Occurrences(Map(TypeKey, ms), key)
    ensures CountOf(MetricsOf(c, ms, now).messagesBySender, key) == Occurrences(Map(SenderKey, ms), key)
  {
    TallyOfCounts(Map(TypeKey, ms), key);
    TallyOfCounts(Map(SenderKey, ms), key);
  }

  function SentBy(ms: seq<Message>, userId: string): (n: nat)
    ensures n <= |ms|
  {
    |Filter((m: Message) => m.senderId == Some(userId), ms)|
  }

  function ParticipantOf(u: User, role: string, c: Conversation, ms: seq<Message>): TranscriptParticipant {
    TranscriptParticipant(u.id, u.name, u.email, role, c.startedAt, c.closedAt, SentBy(ms, u.id))
  }

  function TranscriptLine(st: Store, m: Message): (t: TranscriptMessage)
    ensures t.id == m.id && t.timestamp == m.createdAt && t.content == m.contentText
    ensures t.kind == TypeKey(m) && t.sender.id == SenderKey(m)
  {
    var sender := if m.senderId.Some? then FindUser(st, m.senderId.value) else None;
    var name := if sender.Some? && sender.value.name != "" then sender.value.name else "System";
    TranscriptMessage(m.id, m.createdAt, SenderRef(SenderKey(m), name, m.senderType), m.contentText,
                      TypeKey(m), m.content.metadata, m.attachments, m.content.deleted)
  }

  function EvaluationsOf(st: Store, conversationId: string): seq<Evaluation> {
    Filter((e: Evaluation) => e.conversationId == conversationId, st.evaluations)
  }

  /** The conversation's messages in transcript order: oldest first, store order on ties. */
  function TranscriptOrder(st: Store, conversationId: string): (r: seq<Message>)
    ensures |r| == |MessagesOf(st, conversationId)|
    ensures forall i, j :: 0 <= i < j < |r| ==> r[i].createdAt <= r[j].createdAt
    ensures forall m :: m in r <==> m in st.messages && m.conversationId == conversationId
  {
    var r := SortBy(MessagesOf(st, conversationId), CreatedAt);
    forall m ensures m in r <==> m in MessagesOf(st, conversationId) {
      SortByMembers(MessagesOf(st, conversationId), CreatedAt, m);
    }
    assert forall i, j :: 0 <= i < j < |r| ==> CreatedAt(r[i]) <= CreatedAt(r[j]);
    r
  }

  /** `generateBasicTranscript`. */
  function BasicTranscript(st: Store, conversationId: string, now: Time): (r: Result<Transcript>)
    ensures FindConversation(st, conversationId).None? <==> r.Err?
    ensures r.Err? ==> r == Err(NotFound("Conversation " + conversationId + " not found"))
    ensures r.Ok? ==>
      var c := FindConversation(st, conversationId).value;
      var t := r.value;
      var ms := TranscriptOrder(st, conversationId);
      && t.conversationId == conversationId && t.companyId == c.companyId && t.status == c.status
      && t.createdAt == c.startedAt && t.generatedAt == now
      && |t.messages| == |ms|
      && (forall i :: 0 <= i < |ms| ==> t.messages[i] == TranscriptLine(st, ms[i]))
      && t.metrics == Some(MetricsOf(c, ms, now))
      && t.metrics.value.totalMessages == |t.messages|
      && |t.participants| <= 2
      && (t.evaluation.Some? <==> EvaluationsOf(st, conversationId) != [])
      && (t.queueInfo.Some? <==> c.queuePosition.Some? && c.queuePosition.value != 0)
  {
    match FindConversation(st, conversationId)
    case None => Err(NotFound("Conversation " + conversationId + " not found"))
    case Some(c) =>
      var ms := TranscriptOrder(st, conversationId);
      var client := if c.clientUserId.Some? then FindUser(st, c.clientUserId.value) else None;
      var agent := if c.agentUserId.Some? then FindUser(st, c.agentUserId.value) else None;
      Ok(Transcript(conversationId, c.companyId, c.startedAt, now, c.status, Participants(c, client, agent, ms),
                    TranscriptLines(st, ms), Some(MetricsOf(c, ms, now)), now,
                    EvaluationOf(c, EvaluationsOf(st, conversationId)), QueueInfoOf(c, agent)))
  }

  /** The client, then the agent, each when found. */
  function Participants(c: Conversation, client: Option<User>, agent: Option<User>, ms: seq<Message>)
    : (r: seq<TranscriptParticipant>)
    ensures |r| == (if client.Some? then 1 else 0) + (if agent.Some? then 1 else 0)
    ensures client.Some? ==> r[0] == ParticipantOf(client.value, "client", c, ms)
    ensures agent.Some? ==> r[|r| - 1] == ParticipantOf(agent.value, "agent", c, ms)
  {
    (if client.Some? then [ParticipantOf(client.value, "client", c, ms)] else [])
    + (if agent.Some? then [ParticipantOf(agent.value, "agent", c, ms)] else [])
  }

  function LineIn(st: Store): Message -> TranscriptMessage {
    (m: Message) => TranscriptLine(st, m)
  }

  /** One transcript line per message, in order. */
  function TranscriptLines(st: Store, ms: seq<Message>): (r: seq<TranscriptMessage>)
    ensures |r| == |ms|
    ensures forall i :: 0 <= i < |ms| ==> r[i] == TranscriptLine(st, ms[i])
  {
    Map(LineIn(st), ms)
  }

  /** The first evaluation, if any, with the client as its author. */
  function EvaluationOf(c: Conversation, evaluations: seq<Evaluation>): (r: Option<EvaluationInfo>)
    ensures r.Some? <==> evaluations != []
    ensures r.Some? ==> r.value.rating == evaluations[0].rating && r.value.evaluatedAt == evaluations[0].createdAt
  {
    if evaluations == [] then None
    else
      var e := evaluations[0];
      Some(EvaluationInfo(e.rating, if Given(e.comment) then e.comment else None, e.createdAt,
                          OrElse(c.clientUserId, "")))
  }

  /** The queue block, present when the conversation had a non-zero position. */
  function QueueInfoOf(c: Conversation, agent: Option<User>): (r: Option<QueueInfo>)
    ensures r.Some? <==> c.queuePosition.Some? && c.queuePosition.value != 0
    ensures r.Some? ==> r.value.initialPosition == c.queuePosition.value && (r.value.assignedTo.Some? <==> agent.Some?)
  {
    if c.queuePosition.Some? && c.queuePosition.value != 0 then
      Some(QueueInfo(c.queuePosition.value, 0, if agent.Some? then Some(c.startedAt) else None,
                     if agent.Some? then Some(agent.value.id) else None))
    else None
  }
}
