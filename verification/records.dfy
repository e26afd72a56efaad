/**
 * The persistent records the backend reads and writes, and the in-memory
 * store that stands for the database. Each table is a sequence in insertion
 * order; lookups and updates go through one generic find/replace pair.
 * Times are integer milliseconds.
 */
module Records {
  import opened Base

  type Time = int

  const MinuteMs: int := 60 * 1000
  const HourMs: int := 60 * MinuteMs
  const DayMs: int := 24 * HourMs

  // ---------------------------------------------------------------------
  // Enumerations, each with its wire name and the inverse parser.
  // ---------------------------------------------------------------------

  /** Conversation lifecycle states. */
  datatype ConversationStatus = Open | Waiting | Assigned | Closed

  function StatusName(s: ConversationStatus): string {
    match s
    case Open => "open"
    case Waiting => "waiting"
    case Assigned => "assigned"
    case Closed => "closed"
  }

  function ParseStatus(name: string): (r: Option<ConversationStatus>)
    ensures r.Some? ==> StatusName(r.value) == name
  {
    if name == "open" then Some(Open)
    else if name == "waiting" then Some(Waiting)
    else if name == "assigned" then Some(Assigned)
    else if name == "closed" then Some(Closed)
    else None
  }

  /** The status enumeration has exactly four members with distinct names. */
  lemma StatusNamesRoundTrip(s: ConversationStatus)
    ensures ParseStatus(StatusName(s)) == Some(s)
  {
  }

  /** Kinds of chat message content. */
  datatype MessageType = Text | Image | File | Audio | Video | SystemType | Notification

  function TypeName(t: MessageType): string {
    match t
    case Text => "text"
    case Image => "image"
    case File => "file"
    case Audio => "audio"
    case Video => "video"
    case SystemType => "system"
    case Notification => "notification"
  }

  function ParseType(name: string): (r: Option<MessageType>)
    ensures r.Some? ==> TypeName(r.value) == name
  {
    if name == "text" then Some(Text)
    else if name == "image" then Some(Image)
    else if name == "file" then Some(File)
    else if name == "audio" then Some(Audio)
    else if name == "video" then Some(Video)
    else if name == "system" then Some(SystemType)
    else if name == "notification" then Some(Notification)
    else None
  }

  lemma TypeNamesRoundTrip(t: MessageType)
    ensures ParseType(TypeName(t)) == Some(t)
  {
  }

  /** Delivery states of one message. */
  datatype MessageStatus = Sending | Sent | Delivered | Read | Failed

  function MessageStatusName(s: MessageStatus): string {
    match s
    case Sending => "sending"
    case Sent => "sent"
    case Delivered => "delivered"
    case Read => "read"
    case Failed => "failed"
  }

  function ParseMessageStatus(name: string): (r: Option<MessageStatus>)
    ensures r.Some? ==> MessageStatusName(r.value) == name
  {
    if name == "sending" then Some(Sending)
    else if name == "sent" then Some(Sent)
    else if name == "delivered" then Some(Delivered)
    else if name == "read" then Some(Read)
    else if name == "failed" then Some(Failed)
    else None
  }

  lemma MessageStatusNamesRoundTrip(s: MessageStatus)
    ensures ParseMessageStatus(MessageStatusName(s)) == Some(s)
  {
  }

  /** Attachment categories. */
  datatype AttachmentType = ImageFile | DocumentFile | AudioFile | VideoFile | OtherFile

  function AttachmentTypeName(t: AttachmentType): string {
    match t
    case ImageFile => "image"
    case DocumentFile => "document"
    case AudioFile => "audio"
    case VideoFile => "video"
    case OtherFile => "other"
  }

  /** The audit trail's action vocabulary. */
  datatype AuditAction =
    | UserCreate | UserUpdate | UserDelete | UserLogin | UserLogout
    | ConversationStart | ConversationAssign | ConversationTransfer
    | ConversationClose | ConversationReopen
    | MessageSend | FileUpload | ExportPdf | ExportXml
    | DataExport | DataDelete
    | AgentCreate | AgentUpdate | CompanyCreate | CompanyUpdate

  /** Actions that record a data subject's rights and are kept forever. */
  predicate IsLgpdAction(a: AuditAction) {
    a == DataExport || a == DataDelete
  }

  // ---------------------------------------------------------------------
  // Message content, the JSON document stored with each message.
  // ---------------------------------------------------------------------

  /** Optional file details attached to a message. */
  datatype Metadata = Metadata(
    fileName: Option<string>,
    fileSize: Option<string>,
    mimeType: Option<string>,
    deleted: bool)

  const NoMetadata := Metadata(None, None, None, false)

  datatype ReplyRef = ReplyRef(messageId: string, preview: string)

  /** Who changed a message and when (the `edited` record). */
  datatype Stamp = Stamp(at: Time, who: string)

  /** Per-state timestamps; `sent` is always present. */
  datatype Timestamps = Timestamps(sent: Time, delivered: Option<Time>, read: Option<Time>)

  /** Emoji to the ids of the users who reacted with it. */
  type Reactions = map<string, seq<string>>

  /** The description stored for an uploaded file. */
  datatype AttachmentInfo = AttachmentInfo(
    attachmentType: AttachmentType,
    filename: string,
    originalName: string,
    mimetype: string,
    size: nat,
    path: string,
    url: string,
    uploadedAt: Time)

  /**
   * The JSON document of a message. Different writers fill different
   * fields, so every field except the kind is optional; `kind` is the
   * document's `type` string, absent for documents that carry none.
   */
  datatype Content = Content(
    kind: Option<string>,
    body: Option<string>,
    metadata: Option<Metadata>,
    status: Option<MessageStatus>,
    replyTo: Option<ReplyRef>,
    reactions: Option<Reactions>,
    mentions: Option<seq<string>>,
    edited: Option<Stamp>,
    timestamps: Option<Timestamps>,
    version: Option<int>,
    timestamp: Option<Time>,
    attachment: Option<AttachmentInfo>,
    deleted: bool,
    deletedAt: Option<Time>)

  /** A document holding only a type and a body, as the queue and gateway write. */
  function PlainContent(kind: string, body: string, metadata: Option<Metadata>, at: Time): (c: Content)
    ensures c.kind == Some(kind) && c.body == Some(body) && c.metadata == metadata
    ensures c.timestamp == Some(at) && !c.deleted
    ensures c.timestamps.None? && c.version.None? && c.reactions.None?
  {
    Content(Some(kind), Some(body), metadata, None, None, None, None, None, None, None,
            Some(at), None, false, None)
  }

  /** A file entry in the message's `attachments` column. */
  datatype FileRef = FileRef(name: string, size: Option<string>, mimeType: Option<string>)

  datatype Message = Message(
    id: string,
    conversationId: string,
    senderId: Option<string>,
    senderType: string,
    contentText: string,
    content: Content,
    attachments: Option<seq<FileRef>>,
    audioUrl: Option<string>,
    createdAt: Time)

  // ---------------------------------------------------------------------
  // Other tables.
  // ---------------------------------------------------------------------

  /** A value in a conversation's free-form metadata. */
  datatype MetaValue =
    | Str(s: string)
    | Num(n: int)
    | Flag(b: bool)
      /** Where a conversation's saved transcript is; its format is always JSON. */
    | TranscriptRef(filename: string, generatedAt: Time, messageCount: nat, duration: Option<int>)

  datatype Conversation = Conversation(
    id: string,
    companyId: string,
    clientUserId: Option<string>,
    agentUserId: Option<string>,
    status: ConversationStatus,
    queuePosition: Option<int>,
    startedAt: Time,
    closedAt: Option<Time>,
    metadata: map<string, MetaValue>)

  datatype User = User(
    id: string,
    email: string,
    name: string,
    passwordHash: string,
    role: string,
    companyId: string,
    profilePhotoUrl: Option<string>,
    isDeleted: bool,
    deletedAt: Option<Time>,
    lastActivityAt: Option<Time>,
    createdAt: Time)

  datatype Company = Company(
    id: string,
    name: string,
    cnpj: string,
    contactEmail: string,
    createdAt: Time)

  datatype Evaluation = Evaluation(id: string, conversationId: string, rating: int, comment: Option<string>, createdAt: Time)

  datatype Ticket = Ticket(id: string, conversationId: string, closed: bool, createdAt: Time)

  datatype AuditLog = AuditLog(
    id: string,
    actorId: string,
    action: AuditAction,
    payload: map<string, string>,
    targetId: Option<string>,
    targetType: Option<string>,
    ipAddress: Option<string>,
    userAgent: Option<string>,
    companyId: Option<string>,
    createdAt: Time)

  /** The database: one sequence per table, in insertion order. */
  datatype Store = Store(
    companies: seq<Company>,
    users: seq<User>,
    conversations: seq<Conversation>,
    messages: seq<Message>,
    evaluations: seq<Evaluation>,
    tickets: seq<Ticket>,
    auditLogs: seq<AuditLog>)

  // ---------------------------------------------------------------------
  // Generic lookup and replacement by key.
  // ---------------------------------------------------------------------

  /** `findUnique`: the first record whose key is `k`. */
  function Find<T>(s: seq<T>, key: T -> string, k: string): (r: Option<T>)
    ensures r.Some? ==> key(r.value) == k && exists i :: 0 <= i < |s| && s[i] == r.value
    ensures r.None? ==> forall i :: 0 <= i < |s| ==> key(s[i]) != k
  {
    if s == [] then None
    else if key(s[0]) == k then Some(s[0])
    else
      var r := Find(s[1..], key, k);
      assert r.Some? ==> exists i :: 0 <= i < |s| && s[i] == r.value by {
        if r.Some? {
          var i :| 0 <= i < |s[1..]| && s[1..][i] == r.value;
          assert s[i + 1] == r.value;
        }
      }
      r
  }

  /** With distinct keys the record found is the one at the key's index. */
  lemma FindAt<T>(s: seq<T>, key: T -> string, i: int)
    requires KeysDistinct(s, key)
    requires 0 <= i < |s|
    ensures Find(s, key, key(s[i])) == Some(s[i])
  {
    if i > 0 {
      assert s[1..][i - 1] == s[i];
      FindAt(s[1..], key, i - 1);
    }
  }

  /** With distinct keys, a test for one key that is found keeps exactly one record. */
  lemma {:induction false} KeyedOnce<T>(s: seq<T>, key: T -> string, k: string, p: T -> bool)
    requires KeysDistinct(s, key)
    requires Find(s, key, k).Some?
    requires forall i :: 0 <= i < |s| ==> p(s[i]) == (key(s[i]) == k)
    ensures |Filter(p, s)| == 1
  {
    if key(s[0]) != k {
      assert KeysDistinct(s[1..], key) by {
        forall i, j | 0 <= i < j < |s[1..]|
          ensures key(s[1..][i]) != key(s[1..][j])
        {
          assert s[1..][i] == s[i + 1] && s[1..][j] == s[j + 1];
        }
      }
      KeyedOnce(s[1..], key, k, p);
    } else {
      forall i | 0 <= i < |s[1..]|
        ensures !p(s[1..][i])
      {
        assert s[1..][i] == s[i + 1];
      }
      FilterNone(p, s[1..]);
    }
  }

  /** Sequences with the same keys place by place find the same keys. */
  lemma FindSameKeys<T>(s: seq<T>, t: seq<T>, key: T -> string, k: string)
    requires |s| == |t| && forall i :: 0 <= i < |s| ==> key(s[i]) == key(t[i])
    ensures Find(s, key, k).Some? <==> Find(t, key, k).Some?
  {
    if Find(s, key, k).Some? {
      var i :| 0 <= i < |s| && s[i] == Find(s, key, k).value;
      assert key(t[i]) == k;
    }
    if Find(t, key, k).Some? {
      var i :| 0 <= i < |t| && t[i] == Find(t, key, k).value;
      assert key(s[i]) == k;
    }
  }

  /** `update where key = k`: replace every record with that key by `f` of it. */
  function Replace<T>(s: seq<T>, key: T -> string, k: string, f: T -> T): (r: seq<T>)
    ensures |r| == |s|
    ensures forall i :: 0 <= i < |s| ==> r[i] == if key(s[i]) == k then f(s[i]) else s[i]
  {
    if s == [] then [] else [if key(s[0]) == k then f(s[0]) else s[0]] + Replace(s[1..], key, k, f)
  }

  /** `Replace` with two updates that agree everywhere gives the same rows. */
  lemma ReplaceAgree<T>(s: seq<T>, key: T -> string, k: string, f: T -> T, g: T -> T)
    requires forall x :: f(x) == g(x)
    ensures Replace(s, key, k, f) == Replace(s, key, k, g)
  {
    var a := Replace(s, key, k, f);
    var b := Replace(s, key, k, g);
    assert forall i :: 0 <= i < |s| ==> a[i] == b[i];
  }

  function ConversationId(c: Conversation): string { c.id }
  function MessageId(m: Message): string { m.id }
  function UserId(u: User): string { u.id }
  function UserEmail(u: User): string { u.email }
  function CompanyId(c: Company): string { c.id }
  function CompanyCnpj(c: Company): string { c.cnpj }

  function FindConversation(st: Store, id: string): Option<Conversation> {
    Find(st.conversations, ConversationId, id)
  }

  function FindMessage(st: Store, id: string): Option<Message> {
    Find(st.messages, MessageId, id)
  }

  function FindUser(st: Store, id: string): Option<User> {
    Find(st.users, UserId, id)
  }

  function FindCompany(st: Store, id: string): Option<Company> {
    Find(st.companies, CompanyId, id)
  }

  /** Replace the conversation with `c`'s id by `c`. */
  function PutConversation(st: Store, c: Conversation): (r: Store)
    ensures r == st.(conversations := r.conversations)
    ensures |r.conversations| == |st.conversations|
    ensures forall i :: 0 <= i < |st.conversations| ==>
      r.conversations[i] == if st.conversations[i].id == c.id then c else st.conversations[i]
  {
    st.(conversations := Replace(st.conversations, ConversationId, c.id, _ => c))
  }

  /** Replace the message with `m`'s id by `m`. */
  function PutMessage(st: Store, m: Message): (r: Store)
    ensures r == st.(messages := r.messages)
    ensures |r.messages| == |st.messages|
    ensures forall i :: 0 <= i < |st.messages| ==>
      r.messages[i] == if st.messages[i].id == m.id then m else st.messages[i]
  {
    st.(messages := Replace(st.messages, MessageId, m.id, _ => m))
  }

  /** Replace the user with `u`'s id by `u`. */
  function PutUser(st: Store, u: User): (r: Store)
    ensures r == st.(users := r.users)
    ensures |r.users| == |st.users|
    ensures forall i :: 0 <= i < |st.users| ==>
      r.users[i] == if st.users[i].id == u.id then u else st.users[i]
  {
    st.(users := Replace(st.users, UserId, u.id, _ => u))
  }


  /** Replacing the records of one key leaves the lookup of every other key as it was. */
  lemma {:induction false} FindReplaceOther<T>(s: seq<T>, key: T -> string, k: string, f: T -> T, other: string)
    requires other != k
    requires forall i :: 0 <= i < |s| ==> key(f(s[i])) == key(s[i])
    ensures Find(Replace(s, key, k, f), key, other) == Find(s, key, other)
  {
    if s != [] {
      assert Replace(s, key, k, f)[1..] == Replace(s[1..], key, k, f);
      FindReplaceOther(s[1..], key, k, f, other);
    }
  }

  /** After replacing the records of a key, its lookup finds the replacement of what it found before. */
  lemma {:induction false} FindReplaceSame<T>(s: seq<T>, key: T -> string, k: string, f: T -> T)
    requires forall i :: 0 <= i < |s| ==> key(f(s[i])) == key(s[i])
    requires Find(s, key, k).Some?
    ensures Find(Replace(s, key, k, f), key, k) == Some(f(Find(s, key, k).value))
  {
    if key(s[0]) != k {
      assert Replace(s, key, k, f)[1..] == Replace(s[1..], key, k, f);
      FindReplaceSame(s[1..], key, k, f);
    }
  }
  /** After a pointwise replacement of every record keyed like `x` by `x`, the key finds `x`. */
  lemma FindReplaced<T>(s: seq<T>, r: seq<T>, key: T -> string, x: T)
    requires |r| == |s|
    requires forall i :: 0 <= i < |s| ==> r[i] == if key(s[i]) == key(x) then x else s[i]
    requires Find(s, key, key(x)).Some?
    ensures Find(r, key, key(x)) == Some(x)
  {
    var found := Find(s, key, key(x)).value;
    var i :| 0 <= i < |s| && s[i] == found;
    assert r[i] == x;
    var f := Find(r, key, key(x));
    assert f.Some?;
    var j :| 0 <= j < |r| && r[j] == f.value;
  }

  lemma PutConversationFind(st: Store, c: Conversation)
    requires FindConversation(st, c.id).Some?
    ensures FindConversation(PutConversation(st, c), c.id) == Some(c)
  {
    FindReplaced(st.conversations, PutConversation(st, c).conversations, ConversationId, c);
  }

  lemma PutMessageFind(st: Store, m: Message)
    requires FindMessage(st, m.id).Some?
    ensures FindMessage(PutMessage(st, m), m.id) == Some(m)
  {
    FindReplaced(st.messages, PutMessage(st, m).messages, MessageId, m);
  }

  lemma PutUserFind(st: Store, u: User)
    requires FindUser(st, u.id).Some?
    ensures FindUser(PutUser(st, u), u.id) == Some(u)
  {
    FindReplaced(st.users, PutUser(st, u).users, UserId, u);
  }

  /** Sort keys: oldest first, and newest first. */
  function CreatedAt(m: Message): int { m.createdAt }
  function NegCreatedAt(m: Message): int { -m.createdAt }

  /** Messages of one conversation, in store order. */
  function MessagesOf(st: Store, conversationId: string): (r: seq<Message>)
    ensures forall m :: m in r <==> m in st.messages && m.conversationId == conversationId
  {
    Filter((m: Message) => m.conversationId == conversationId, st.messages)
  }

  /** The newest message (largest createdAt, earliest in store order on ties). */
  function Newest(ms: seq<Message>): (r: Option<Message>)
    ensures r.None? <==> ms == []
    ensures r.Some? ==> r.value in ms && forall m :: m in ms ==> m.createdAt <= r.value.createdAt
  {
    if ms == [] then None
    else
      var rest := Newest(ms[1..]);
      if rest.Some? && rest.value.createdAt > ms[0].createdAt then rest else Some(ms[0])
  }
}
