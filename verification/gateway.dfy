/**
 * The realtime chat gateway: the in-memory registry of connected users,
 * sockets and typing users, and the handlers for connection, join, leave,
 * send, typing and queue-position requests. Each handler takes the registry
 * and the calling socket, and returns their new values together with the
 * events it emitted, in order.
 */
module Gateway {
  import opened Base
  import opened Records
  import opened Sorting
  import Queue

  // ---------------------------------------------------------------------
  // Names.
  // ---------------------------------------------------------------------

  const ConversationRoomPrefix := "conversation:"

  /** The room that carries one conversation's traffic. */
  function RoomName(conversationId: string): (room: string)
    ensures IsPrefix(ConversationRoomPrefix, room)
    ensures |room| == |ConversationRoomPrefix| + |conversationId|
  {
    ConversationRoomPrefix + conversationId
  }

  /** The conversation a room name belongs to, if it is a conversation room. */
  function RoomConversation(room: string): Option<string> {
    if IsPrefix(ConversationRoomPrefix, room) then Some(room[|ConversationRoomPrefix|..]) else None
  }

  lemma RoomNameRoundTrip(conversationId: string)
    ensures RoomConversation(RoomName(conversationId)) == Some(conversationId)
  {
    assert RoomName(conversationId)[|ConversationRoomPrefix|..] == conversationId;
  }

  /** Distinct conversations use distinct rooms. */
  lemma RoomNameInjective(a: string, b: string)
    requires RoomName(a) == RoomName(b)
    ensures a == b
  {
    RoomNameRoundTrip(a);
    RoomNameRoundTrip(b);
  }

  /** Template interpolation of a possibly missing conversation id. */
  function RoomOf(conversationId: Option<string>): string {
    if conversationId.Some? then RoomName(conversationId.value) else RoomName("undefined")
  }

  const ErrUnauthorized := "UNAUTHORIZED"
  const ErrConversationNotFound := "CONVERSATION_NOT_FOUND"
  const ErrInvalidMessage := "INVALID_MESSAGE"

  // ---------------------------------------------------------------------
  // State.
  // ---------------------------------------------------------------------

  /** What the gateway keeps per socket. */
  datatype SocketData = SocketData(
    userId: Option<string>,
    conversationId: Option<string>,
    role: Option<string>,
    userName: Option<string>)

  /** One client connection: its id, data, the rooms it joined and whether it is still connected. */
  datatype Sock = Sock(id: string, data: SocketData, rooms: set<string>, connected: bool)

  /** The registry maps; a user id absent from `typingUsers` sets stands for `undefined`. */
  datatype Registry = Registry(
    connectedUsers: map<string, set<string>>,
    socketToUser: map<string, string>,
    typingUsers: map<string, set<Option<string>>>)

  const EmptyRegistry := Registry(map[], map[], map[])

  /** The two connection maps describe the same relation and hold no empty entry. */
  ghost predicate Consistent(reg: Registry) {
    && (forall u :: u in reg.connectedUsers ==> reg.connectedUsers[u] != {})
    && (forall s :: s in reg.socketToUser ==>
          reg.socketToUser[s] in reg.connectedUsers && s in reg.connectedUsers[reg.socketToUser[s]])
    && (forall u, s :: u in reg.connectedUsers && s in reg.connectedUsers[u] ==>
          s in reg.socketToUser && reg.socketToUser[s] == u)
  }

  /** Conversations are dropped from the typing map when their last typist stops. */
  ghost predicate NoEmptyTyping(reg: Registry) {
    forall c :: c in reg.typingUsers ==> reg.typingUsers[c] != {}
  }

  // ---------------------------------------------------------------------
  // Registry operations.
  // ---------------------------------------------------------------------

  predicate IsUserOnline(reg: Registry, userId: string) {
    userId in reg.connectedUsers
  }

  function AddUserConnection(reg: Registry, userId: string, socketId: string): (r: Registry)
    ensures IsUserOnline(r, userId)
    ensures socketId in r.connectedUsers[userId]
    ensures socketId in r.socketToUser && r.socketToUser[socketId] == userId
    ensures r.typingUsers == reg.typingUsers
    ensures forall u :: u != userId ==> (u in r.connectedUsers <==> u in reg.connectedUsers)
  {
    var connections := if userId in reg.connectedUsers then reg.connectedUsers[userId] else {};
    reg.(connectedUsers := reg.connectedUsers[userId := connections + {socketId}],
         socketToUser := reg.socketToUser[socketId := userId])
  }

  function RemoveUserConnection(reg: Registry, userId: string, socketId: string): (r: Registry)
    ensures socketId !in r.socketToUser
    ensures IsUserOnline(r, userId) <==>
              IsUserOnline(reg, userId) && reg.connectedUsers[userId] - {socketId} != {}
    ensures IsUserOnline(r, userId) ==> r.connectedUsers[userId] == reg.connectedUsers[userId] - {socketId}
    ensures r.typingUsers == reg.typingUsers
    ensures forall u :: u != userId ==> (u in r.connectedUsers <==> u in reg.connectedUsers)
  {
    var users :=
      if userId in reg.connectedUsers then
        var rest := reg.connectedUsers[userId] - {socketId};
        if rest == {} then reg.connectedUsers - {userId} else reg.connectedUsers[userId := rest]
      else reg.connectedUsers;
    reg.(connectedUsers := users, socketToUser := reg.socketToUser - {socketId})
  }

  /** Registering a new socket keeps the two maps in agreement. */
  lemma AddKeepsConsistent(reg: Registry, userId: string, socketId: string)
    requires Consistent(reg)
    requires socketId !in reg.socketToUser
    ensures Consistent(AddUserConnection(reg, userId, socketId))
  {
    var r := AddUserConnection(reg, userId, socketId);
    forall u, s | u in r.connectedUsers && s in r.connectedUsers[u]
      ensures s in r.socketToUser && r.socketToUser[s] == u
    {
      if s == socketId && u != userId {
        assert s in reg.connectedUsers[u];
      }
    }
  }

  /** Dropping a socket under the user it belongs to keeps the two maps in agreement. */
  lemma RemoveKeepsConsistent(reg: Registry, userId: string, socketId: string)
    requires Consistent(reg)
    requires socketId in reg.socketToUser ==> reg.socketToUser[socketId] == userId
    ensures Consistent(RemoveUserConnection(reg, userId, socketId))
  {
    var r := RemoveUserConnection(reg, userId, socketId);
    forall s | s in r.socketToUser
      ensures r.socketToUser[s] in r.connectedUsers && s in r.connectedUsers[r.socketToUser[s]]
    {
      var u := reg.socketToUser[s];
      assert s in reg.connectedUsers[u];
      if u == userId {
        assert s in reg.connectedUsers[userId] - {socketId};
      }
    }
    forall u, s | u in r.connectedUsers && s in r.connectedUsers[u]
      ensures s in r.socketToUser && r.socketToUser[s] == u
    {
      assert s in reg.connectedUsers[u];
    }
  }

  /** Adding a fresh socket and removing it again restores the registry. */
  lemma AddThenRemove(reg: Registry, userId: string, socketId: string)
    requires Consistent(reg)
    requires socketId !in reg.socketToUser
    ensures RemoveUserConnection(AddUserConnection(reg, userId, socketId), userId, socketId) == reg
  {
    var r := RemoveUserConnection(AddUserConnection(reg, userId, socketId), userId, socketId);
    if userId in reg.connectedUsers {
      assert socketId !in reg.connectedUsers[userId];
      assert reg.connectedUsers[userId] + {socketId} - {socketId} == reg.connectedUsers[userId];
    }
    assert r.connectedUsers == reg.connectedUsers;
    assert r.socketToUser == reg.socketToUser;
  }

  // ---------------------------------------------------------------------
  // Emitted events.
  // ---------------------------------------------------------------------

  /** Where an event goes: one socket, a room except the sender, or a whole room. */
  datatype Target = ToSocket(socketId: string) | ToRoomExcept(room: string, except: string) | ToRoom(room: string)

  /** The payload the gateway broadcasts for a chat message. */
  datatype MessageData = MessageData(
    id: string,
    conversationId: string,
    senderId: string,
    senderName: string,
    senderType: string,
    content: string,
    contentType: string,
    timestamp: Time,
    metadata: Option<MessageExtra>)

  /**
   * The free-form `metadata` of a broadcast message: the stored content
   * document for history sent on joining, the sender's own metadata for a
   * new message.
   */
  datatype MessageExtra = StoredContent(content: Content) | SentMetadata(given: Metadata)

  datatype Payload =
    | ErrorPayload(code: string, errorText: string)
    | UserJoined(userId: Option<string>, userName: string, role: string)
    | UserLeft(leftUserId: Option<string>)
    | MessagePayload(message: MessageData)
    | MessageRead(messageId: string)
    | Typing(typistId: Option<string>, isTyping: bool)
    | ConversationAssigned(assignedConversation: string, agentId: string, agentName: string)
    | QueueUpdate(position: int, estimatedWait: int)

  datatype Event = Event(target: Target, payload: Payload)

  // ---------------------------------------------------------------------
  // Connection and disconnection.
  // ---------------------------------------------------------------------

  /** The handshake: an auth token and a claimed user id, either possibly missing. */
  datatype Handshake = Handshake(token: Option<string>, userId: Option<string>)

  function HandleConnection(reg: Registry, sock: Sock, hs: Handshake): (r: (Registry, Sock, seq<Event>))
    ensures !Given(hs.token) ==>
      && r.0 == reg && !r.1.connected && r.1.data == sock.data
      && r.2 == [Event(ToSocket(sock.id), ErrorPayload(ErrUnauthorized, "Authentication required"))]
    ensures Given(hs.token) && Given(hs.userId) ==>
      && r.0 == AddUserConnection(reg, hs.userId.value, sock.id)
      && r.1 == sock.(data := sock.data.(userId := hs.userId)) && r.2 == []
    ensures Given(hs.token) && !Given(hs.userId) ==> r == (reg, sock, [])
  {
    if !Given(hs.token) then
      (reg, sock.(connected := false),
       [Event(ToSocket(sock.id), ErrorPayload(ErrUnauthorized, "Authentication required"))])
    else if Given(hs.userId) then
      (AddUserConnection(reg, hs.userId.value, sock.id), sock.(data := sock.data.(userId := hs.userId)), [])
    else (reg, sock, [])
  }

  /**
   * On disconnect a socket with a user id is unregistered and its typing
   * state in its current conversation is cleared. Rooms are not left
   * explicitly and no user-left notice is sent.
   */
  function HandleDisconnect(reg: Registry, sock: Sock): (r: (Registry, seq<Event>))
    ensures !Given(sock.data.userId) ==> r == (reg, [])
    ensures Given(sock.data.userId) ==>
      var removed := RemoveUserConnection(reg, sock.data.userId.value, sock.id);
      && sock.id !in r.0.socketToUser
      && r.0.connectedUsers == removed.connectedUsers
      && (Given(sock.data.conversationId) ==>
            r == StopTyping(removed, sock, sock.data.conversationId))
      && (!Given(sock.data.conversationId) ==> r == (removed, []))
  {
    if !Given(sock.data.userId) then (reg, [])
    else
      var removed := RemoveUserConnection(reg, sock.data.userId.value, sock.id);
      if Given(sock.data.conversationId) then StopTyping(removed, sock, sock.data.conversationId)
      else (removed, [])
  }

  // ---------------------------------------------------------------------
  // Typing indicators.
  // ---------------------------------------------------------------------

  function StartTyping(reg: Registry, sock: Sock): (r: (Registry, seq<Event>))
    ensures !Given(sock.data.conversationId) ==> r == (reg, [])
    ensures Given(sock.data.conversationId) ==>
      var c := sock.data.conversationId.value;
      && c in r.0.typingUsers && sock.data.userId in r.0.typingUsers[c]
      && r.0.typingUsers[c] == (if c in reg.typingUsers then reg.typingUsers[c] else {}) + {sock.data.userId}
      && (forall d :: d != c ==> (d in r.0.typingUsers <==> d in reg.typingUsers))
      && (forall d :: d != c && d in reg.typingUsers ==> r.0.typingUsers[d] == reg.typingUsers[d])
      && r.1 == [Event(ToRoomExcept(RoomName(c), sock.id), Typing(sock.data.userId, true))]
      && r.0.connectedUsers == reg.connectedUsers && r.0.socketToUser == reg.socketToUser
  {
    if !Given(sock.data.conversationId) then (reg, [])
    else
      var c := sock.data.conversationId.value;
      var typing := if c in reg.typingUsers then reg.typingUsers[c] else {};
      (reg.(typingUsers := reg.typingUsers[c := typing + {sock.data.userId}]),
       [Event(ToRoomExcept(RoomName(c), sock.id), Typing(sock.data.userId, true))])
  }

  /**
   * `handleStopTyping`: the conversation is the argument or else the
   * socket's current one. The user leaves its typing set, an emptied set is
   * dropped, and a stopped-typing notice goes out even if nothing changed.
   */
  function StopTyping(reg: Registry, sock: Sock, conversationId: Option<string>): (r: (Registry, seq<Event>))
    ensures var target := if Given(conversationId) then conversationId else sock.data.conversationId;
      && (!Given(target) ==> r == (reg, []))
      && (Given(target) ==>
            var c := target.value;
            && (c in r.0.typingUsers ==> sock.data.userId !in r.0.typingUsers[c])
            && (c in r.0.typingUsers <==>
                  c in reg.typingUsers && reg.typingUsers[c] - {sock.data.userId} != {})
            && (c in r.0.typingUsers ==> r.0.typingUsers[c] == reg.typingUsers[c] - {sock.data.userId})
            && (forall d :: d != c ==> (d in r.0.typingUsers <==> d in reg.typingUsers))
            && (forall d :: d != c && d in reg.typingUsers ==> r.0.typingUsers[d] == reg.typingUsers[d])
            && r.1 == [Event(ToRoomExcept(RoomName(c), sock.id), Typing(sock.data.userId, false))]
            && r.0.connectedUsers == reg.connectedUsers && r.0.socketToUser == reg.socketToUser)
  {
    var target := if Given(conversationId) then conversationId else sock.data.conversationId;
    if !Given(target) then (reg, [])
    else
      var c := target.value;
      var typing :=
        if c in reg.typingUsers then
          var rest := reg.typingUsers[c] - {sock.data.userId};
          if rest == {} then reg.typingUsers - {c} else reg.typingUsers[c := rest]
        else reg.typingUsers;
      (reg.(typingUsers := typing),
       [Event(ToRoomExcept(RoomName(c), sock.id), Typing(sock.data.userId, false))])
  }

  lemma StartTypingKeepsNoEmpty(reg: Registry, sock: Sock)
    requires NoEmptyTyping(reg)
    ensures NoEmptyTyping(StartTyping(reg, sock).0)
  {
  }

  lemma StopTypingKeepsNoEmpty(reg: Registry, sock: Sock, conversationId: Option<string>)
    requires NoEmptyTyping(reg)
    ensures NoEmptyTyping(StopTyping(reg, sock, conversationId).0)
  {
  }

  /** Starting and then stopping typing leaves the user out of the conversation's typing set. */
  lemma StartThenStopTyping(reg: Registry, sock: Sock)
    requires Given(sock.data.conversationId)
    ensures var c := sock.data.conversationId.value;
      var r := StopTyping(StartTyping(reg, sock).0, sock, None).0;
      c in r.typingUsers ==> sock.data.userId !in r.typingUsers[c]
  {
  }

  // ---------------------------------------------------------------------
  // Joining and leaving a conversation.
  // ---------------------------------------------------------------------

  /** How many recent messages a join returns. */
  const JoinHistory: nat := 50

  /** The conversation's messages, newest first, at most 50. */
  function RecentMessages(st: Store, conversationId: string): (r: seq<Message>)
    ensures |r| <= JoinHistory
    ensures |r| == if |MessagesOf(st, conversationId)| < JoinHistory then |MessagesOf(st, conversationId)| else JoinHistory
    ensures forall i, j :: 0 <= i < j < |r| ==> r[i].createdAt >= r[j].createdAt
    ensures forall m :: m in r ==> m in st.messages && m.conversationId == conversationId
    ensures forall m :: m in MessagesOf(st, conversationId) && m !in r ==>
              forall n :: n in r ==> m.createdAt <= n.createdAt
  {
    NewestWindow(MessagesOf(st, conversationId), JoinHistory);
    Take(SortBy(MessagesOf(st, conversationId), NegCreatedAt), JoinHistory)
  }

  /** The first `n` messages newest first are ordered newest first and are the newest ones. */
  lemma NewestWindow(all: seq<Message>, n: nat)
    ensures var r := Take(SortBy(all, NegCreatedAt), n);
      && (forall i, j :: 0 <= i < j < |r| ==> r[i].createdAt >= r[j].createdAt)
      && (forall m :: m in r ==> m in all)
      && (forall m :: m in all && m !in r ==> forall k :: k in r ==> m.createdAt <= k.createdAt)
  {
    var r := Take(SortBy(all, NegCreatedAt), n);
    TakeSorted(all, NegCreatedAt, n);
    forall i, j | 0 <= i < j < |r| ensures r[i].createdAt >= r[j].createdAt {
      assert NegCreatedAt(r[i]) <= NegCreatedAt(r[j]);
    }
    forall m, k | m in all && m !in r && k in r ensures m.createdAt <= k.createdAt {
      assert NegCreatedAt(k) <= NegCreatedAt(m);
    }
  }

  datatype Participant = Participant(userId: string, userName: string, role: string, isOnline: bool)

  datatype JoinResponse =
    | Joined(conversationId: string, messages: seq<MessageData>, participants: seq<Participant>)
    | JoinFailed(failedConversationId: string, error: string)

  /** How a stored message is presented to a joining socket. */
  function JoinView(c: Conversation, client: Option<User>, agent: Option<User>, m: Message): (d: MessageData)
    ensures d.id == m.id && d.content == m.contentText && d.contentType == "text"
    ensures d.senderId == (if Given(m.senderId) then m.senderId.value else "system")
  {
    var senderName :=
      if m.senderType == "agent" then
        (if agent.Some? && agent.value.name != "" then agent.value.name else "Agent")
      else
        (if client.Some? && client.value.name != "" then client.value.name else "Client");
    MessageData(m.id, m.conversationId, if Given(m.senderId) then m.senderId.value else "system",
                senderName, m.senderType, m.contentText, "text", m.createdAt, Some(StoredContent(m.content)))
  }

  function Participants(reg: Registry, client: Option<User>, agent: Option<User>): (ps: seq<Participant>)
    ensures |ps| == (if client.Some? then 1 else 0) + (if agent.Some? then 1 else 0)
    ensures forall p :: p in ps ==> p.isOnline == IsUserOnline(reg, p.userId)
  {
    (if client.Some? then [Participant(client.value.id, client.value.name, "client", IsUserOnline(reg, client.value.id))] else [])
    + (if agent.Some? then [Participant(agent.value.id, agent.value.name, "agent", IsUserOnline(reg, agent.value.id))] else [])
  }

  function Related(st: Store, id: Option<string>): Option<User> {
    if id.Some? then FindUser(st, id.value) else None
  }

  /**
   * `handleJoin`: for a known conversation, join its room, remember it as
   * the socket's conversation, tell the others, and answer with the recent
   * history and the participants. An unknown conversation changes nothing.
   */
  function HandleJoin(st: Store, reg: Registry, sock: Sock, conversationId: string): (r: (Sock, seq<Event>, JoinResponse))
    ensures FindConversation(st, conversationId).None? ==>
      r == (sock, [], JoinFailed(conversationId, "Conversation not found"))
    ensures FindConversation(st, conversationId).Some? ==>
      && r.0 == sock.(rooms := sock.rooms + {RoomName(conversationId)},
                      data := sock.data.(conversationId := Some(conversationId)))
      && r.1 == [Event(ToRoomExcept(RoomName(conversationId), sock.id),
                       UserJoined(sock.data.userId, OrElse(sock.data.userName, "User"), OrElse(sock.data.role, "client")))]
      && r.2.Joined? && r.2.conversationId == conversationId
      && |r.2.messages| <= JoinHistory
      && |r.2.messages| == |RecentMessages(st, conversationId)|
      && (forall i :: 0 <= i < |r.2.messages| ==> r.2.messages[i].id == RecentMessages(st, conversationId)[i].id)
      && (forall p :: p in r.2.participants ==> p.isOnline == IsUserOnline(reg, p.userId))
  {
    match FindConversation(st, conversationId)
    case None => (sock, [], JoinFailed(conversationId, "Conversation not found"))
    case Some(c) =>
      var room := RoomName(conversationId);
      var client := Related(st, c.clientUserId);
      var agent := Related(st, c.agentUserId);
      var history := Map(m => JoinView(c, client, agent, m), RecentMessages(st, conversationId));
      (sock.(rooms := sock.rooms + {room}, data := sock.data.(conversationId := Some(conversationId))),
       [Event(ToRoomExcept(room, sock.id),
              UserJoined(sock.data.userId, OrElse(sock.data.userName, "User"), OrElse(sock.data.role, "client")))],
       Joined(conversationId, history, Participants(reg, client, agent)))
  }

  /** `handleLeave`: leave the room, tell the others, forget the current conversation. */
  function HandleLeave(sock: Sock, conversationId: string): (r: (Sock, seq<Event>))
    ensures RoomName(conversationId) !in r.0.rooms
    ensures r.0.rooms == sock.rooms - {RoomName(conversationId)}
    ensures r.0.data == sock.data.(conversationId := None)
    ensures r.1 == [Event(ToRoomExcept(RoomName(conversationId), sock.id), UserLeft(sock.data.userId))]
  {
    var room := RoomName(conversationId);
    (sock.(rooms := sock.rooms - {room}, data := sock.data.(conversationId := None)),
     [Event(ToRoomExcept(room, sock.id), UserLeft(sock.data.userId))])
  }

  /** Joining a conversation and leaving it again leaves the socket with no current conversation. */
  lemma JoinThenLeave(st: Store, reg: Registry, sock: Sock, conversationId: string)
    requires FindConversation(st, conversationId).Some?
    requires RoomName(conversationId) !in sock.rooms
    ensures var joined := HandleJoin(st, reg, sock, conversationId).0;
      var left := HandleLeave(joined, conversationId).0;
      left.rooms == sock.rooms && left.data.conversationId.None?
  {
  }

  // ---------------------------------------------------------------------
  // Sending a message.
  // ---------------------------------------------------------------------

  datatype SendMessageData = SendMessageData(
    conversationId: Option<string>,
    content: Option<string>,
    contentType: Option<string>,
    metadata: Option<Metadata>)

  datatype MessageResponse = SendAck(messageId: string, timestamp: Time) | SendFailed(error: string)

  /**
   * `handleSendMessage`: validate, persist, broadcast to the whole room
   * (sender included), clear the sender's typing state and acknowledge.
   * `newId` is the id the store assigns; `storeError` is the message of
   * the error the store raises when it rejects the insert, which the
   * handler returns as a failed send.
   */
  function HandleSendMessage(st: Store, reg: Registry, sock: Sock, data: SendMessageData,
                             newId: string, now: Time, storeError: Option<string>): (r: (Store, Registry, seq<Event>, MessageResponse))
    ensures !Given(data.content) || !Given(data.conversationId) ==>
      r == (st, reg, [], SendFailed("Invalid message data"))
    ensures Given(data.content) && Given(data.conversationId) && storeError.Some? ==>
      r == (st, reg, [], SendFailed(storeError.value))
    ensures Given(data.content) && Given(data.conversationId) && storeError.None? ==>
      var c := data.conversationId.value;
      && r.3 == SendAck(newId, now)
      && |r.0.messages| == |st.messages| + 1
      && r.0 == st.(messages := st.messages + [r.0.messages[|st.messages|]])
      && var m := r.0.messages[|st.messages|];
      && m.id == newId && m.conversationId == c && m.senderId == sock.data.userId
      && m.senderType == OrElse(sock.data.role, "client") && m.contentText == data.content.value
      && m.content.kind == Some(OrElse(data.contentType, "text")) && m.content.body == data.content
      && m.content.metadata == data.metadata
      && |r.2| == 2
      && r.2[0].target == ToRoom(RoomName(c)) && r.2[0].payload.MessagePayload?
      && var out := r.2[0].payload.message;
      && out.id == newId && out.conversationId == c && out.content == data.content.value
      && out.contentType == OrElse(data.contentType, "text") && out.senderType == m.senderType
      && (out.metadata.Some? <==> data.metadata.Some?)
      && (data.metadata.Some? ==> out.metadata.value == SentMetadata(data.metadata.value))
      && (r.1, r.2[1..]) == StopTyping(reg, sock, data.conversationId)
  {
    if !Given(data.content) || !Given(data.conversationId) then
      (st, reg, [], SendFailed("Invalid message data"))
    else if storeError.Some? then
      (st, reg, [], SendFailed(storeError.value))
    else
      var c := data.conversationId.value;
      var text := data.content.value;
      var kind := OrElse(data.contentType, "text");
      var m := Message(newId, c, sock.data.userId, OrElse(sock.data.role, "client"), text,
                       PlainContent(kind, text, data.metadata, now), None, None, now);
      var sender := Related(st, sock.data.userId);
      var out := MessageData(newId, c, if Given(sock.data.userId) then sock.data.userId.value else "system",
                             if sender.Some? && sender.value.name != "" then sender.value.name else "User",
                             m.senderType, text, kind, now,
                             if data.metadata.Some? then Some(SentMetadata(data.metadata.value)) else None);
      var (reg', typing) := StopTyping(reg, sock, data.conversationId);
      (st.(messages := st.messages + [m]), reg', [Event(ToRoom(RoomName(c)), MessagePayload(out))] + typing, SendAck(newId, now))
  }

  /** After a successful send the sender is no longer typing in that conversation. */
  lemma SendClearsTyping(st: Store, reg: Registry, sock: Sock, data: SendMessageData, newId: string, now: Time)
    requires Given(data.content) && Given(data.conversationId)
    ensures var reg' := HandleSendMessage(st, reg, sock, data, newId, now, None).1;
      var c := data.conversationId.value;
      c in reg'.typingUsers ==> sock.data.userId !in reg'.typingUsers[c]
  {
  }

  /** `handleMarkAsRead`: relay the read notice to the others in the current room. */
  function HandleMarkAsRead(sock: Sock, messageId: string): (e: seq<Event>)
    ensures |e| == 1 && e[0].payload == MessageRead(messageId)
    ensures e[0].target == ToRoomExcept(RoomOf(sock.data.conversationId), sock.id)
  {
    [Event(ToRoomExcept(RoomOf(sock.data.conversationId), sock.id), MessageRead(messageId))]
  }

  // ---------------------------------------------------------------------
  // Queue position and notifications.
  // ---------------------------------------------------------------------

  /** `handleGetQueuePosition`: -1 outside a conversation, else the stored position or 0. */
  function HandleGetQueuePosition(st: Store, sock: Sock): (r: Result<int>)
    ensures !Given(sock.data.conversationId) ==> r == Ok(-1)
    ensures Given(sock.data.conversationId) ==>
      var c := FindConversation(st, sock.data.conversationId.value);
      && (c.None? <==> r.Err?)
      && (c.Some? ==> r == Ok(if c.value.queuePosition.Some? then c.value.queuePosition.value else 0))
  {
    if !Given(sock.data.conversationId) then Ok(-1)
    else
      var status :- Queue.GetQueueStatus(st, sock.data.conversationId.value);
      Ok(status.queuePosition.GetOr(0))
  }

  function NotifyConversationAssigned(conversationId: string, agentId: string, agentName: string): (e: Event)
    ensures e.target == ToRoom(RoomName(conversationId))
    ensures e.payload == ConversationAssigned(conversationId, agentId, agentName)
  {
    Event(ToRoom(RoomName(conversationId)), ConversationAssigned(conversationId, agentId, agentName))
  }

  function NotifyQueueUpdate(conversationId: string, position: int, estimatedWait: int): (e: Event)
    ensures e.target == ToRoom(RoomName(conversationId))
    ensures e.payload == QueueUpdate(position, estimatedWait)
  {
    Event(ToRoom(RoomName(conversationId)), QueueUpdate(position, estimatedWait))
  }
}
