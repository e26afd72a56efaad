/**
 * The browser side of the chat connection: the state the socket hook
 * keeps (messages, queue status, who is typing) and how each server event
 * changes it. Events are delivered one at a time; the requests the hook
 * sends and the callbacks it invokes are returned as effects.
 */
module SocketClient {
  import opened Base

  datatype SenderType = ClientSender | AgentSender | SystemSender
  datatype ContentType = TextContent | ImageContent | FileContent | AudioContent

  /** A chat message as the client holds it; `delivered`/`read` are the flags the receipts add. */
  datatype ClientMessage = ClientMessage(
    id: string,
    conversationId: string,
    senderId: string,
    senderName: string,
    senderType: SenderType,
    content: string,
    contentType: ContentType,
    timestamp: string,
    delivered: bool,
    read: bool)

  datatype QueueStatus = QueueStatus(position: int, estimatedWait: int)

  datatype TypingUser = TypingUser(userId: string, userName: string, isTyping: bool)

  /**
   * The hook's state. `typing` stands for the map from user id to typing
   * entry, in insertion order, as the hook's `typingUsers` array lists it.
   */
  datatype ClientState = ClientState(
    connected: bool,
    reconnecting: bool,
    messages: seq<ClientMessage>,
    queueStatus: Option<QueueStatus>,
    typing: seq<TypingUser>)

  const Initial := ClientState(false, false, [], None, [])

  /** The name shown for a typing user who sent none. */
  const AnonymousTypist := "Usuário"

  datatype ServerEvent =
    | Connected
    | Disconnected
    | ConnectError
    | ReconnectAttempt
    | JoinAck(success: bool, history: Option<seq<ClientMessage>>)
    | MessageReceived(message: ClientMessage)
    | MessageDelivered(messageId: string)
    | MessageRead(messageId: string)
    | QueueUpdate(status: QueueStatus)
    | ConversationAssigned(agentId: string, agentName: string, now: nat, iso: string)
    | TypingChanged(userId: string, userName: Option<string>, isTyping: bool)
    | UserJoined(joinedId: string, joinedName: string, now: nat, iso: string)
    | UserLeft(userId: string)

  /** What the hook sends to the server, and the callbacks it calls. */
  datatype Effect =
    | EmitJoin(conversationId: string)
    | EmitSendMessage(conversationId: string, content: string, contentType: ContentType)
    | OnMessage(message: ClientMessage)
    | OnQueueUpdate(status: QueueStatus)
    | OnTyping(user: TypingUser)
    | OnError

  // ---------------------------------------------------------------------
  // The typing map
  // ---------------------------------------------------------------------

  /** `Map.set`: an existing user keeps its place with the new entry; a new one goes last. */
  function Upsert(t: seq<TypingUser>, u: TypingUser): seq<TypingUser> {
    if t == [] then [u]
    else if t[0].userId == u.userId then [u] + t[1..]
    else [t[0]] + Upsert(t[1..], u)
  }

  /** `Map.delete`. */
  function Unset(t: seq<TypingUser>, userId: string): seq<TypingUser> {
    Filter((x: TypingUser) => x.userId != userId, t)
  }

  predicate UniqueTypists(t: seq<TypingUser>) {
    forall i, j :: 0 <= i < j < |t| ==> t[i].userId != t[j].userId
  }

  /** The map the sequence stands for: each user id to its entry. */
  function TypingMap(t: seq<TypingUser>): map<string, TypingUser> {
    if t == [] then map[] else TypingMap(t[1..])[t[0].userId := t[0]]
  }

  /** Upserting is setting the user's key in the map. */
  lemma {:induction false} UpsertIsMapSet(t: seq<TypingUser>, u: TypingUser)
    ensures TypingMap(Upsert(t, u)) == TypingMap(t)[u.userId := u]
  {
    if t != [] && t[0].userId != u.userId {
      UpsertIsMapSet(t[1..], u);
      var r := Upsert(t, u);
      assert r[0] == t[0] && r[1..] == Upsert(t[1..], u);
    } else if t != [] {
      var r := Upsert(t, u);
      assert r[1..] == t[1..];
    }
  }

  /** Unsetting is removing the user's key from the map. */
  lemma {:induction false} UnsetIsMapRemove(t: seq<TypingUser>, userId: string)
    ensures TypingMap(Unset(t, userId)) == TypingMap(t) - {userId}
  {
    if t != [] {
      UnsetIsMapRemove(t[1..], userId);
      var r := Unset(t, userId);
      if t[0].userId != userId {
        assert r[0] == t[0] && r[1..] == Unset(t[1..], userId);
      } else {
        assert r == Unset(t[1..], userId);
      }
    }
  }

  lemma {:induction false} UpsertKeepsUnique(t: seq<TypingUser>, u: TypingUser)
    requires UniqueTypists(t)
    ensures UniqueTypists(Upsert(t, u))
    ensures forall x :: x in Upsert(t, u) ==> x == u || x in t
  {
    if t != [] && t[0].userId != u.userId {
      UpsertKeepsUnique(t[1..], u);
      var r := Upsert(t, u);
      assert r[1..] == Upsert(t[1..], u);
      forall j | 0 < j < |r|
        ensures r[0].userId != r[j].userId
      {
        assert r[j] in r[1..];
        assert r[j] == u || r[j] in t[1..];
        if r[j] != u {
          var k :| 0 <= k < |t[1..]| && t[1..][k] == r[j];
          assert t[k + 1] == r[j];
        }
      }
    } else if t != [] {
      var r := Upsert(t, u);
      assert forall j :: 0 < j < |r| ==> r[j] == t[j];
    }
  }

  lemma UnsetKeepsUnique(t: seq<TypingUser>, userId: string)
    requires UniqueTypists(t)
    ensures UniqueTypists(Unset(t, userId))
  {
    var p := (x: TypingUser) => x.userId != userId;
    FilterIsSubsequence(p, t);
    SubsequenceKeepsUnique(Unset(t, userId), t);
  }

  lemma {:induction false} SubsequenceKeepsUnique(a: seq<TypingUser>, b: seq<TypingUser>)
    requires IsSubsequence(a, b) && UniqueTypists(b)
    ensures UniqueTypists(a)
    ensures forall x :: x in a ==> x in b
    decreases |b|
  {
    if a != [] {
      assert UniqueTypists(b[1..]) by {
        forall i, j | 0 <= i < j < |b[1..]|
          ensures b[1..][i].userId != b[1..][j].userId
        {
          assert b[1..][i] == b[i + 1] && b[1..][j] == b[j + 1];
        }
      }
      if a[0] == b[0] && IsSubsequence(a[1..], b[1..]) {
        SubsequenceKeepsUnique(a[1..], b[1..]);
        forall i, j | 0 <= i < j < |a|
          ensures a[i].userId != a[j].userId
        {
          assert a[j] == a[1..][j - 1];
          if i == 0 {
            assert a[j] in a[1..];
            assert a[j] in b[1..];
            var k :| 0 <= k < |b[1..]| && b[1..][k] == a[j];
            assert b[k + 1] == a[j];
          } else {
            assert a[i] == a[1..][i - 1];
          }
        }
        forall x | x in a
          ensures x in b
        {
          if x != a[0] {
            assert x in a[1..];
          }
        }
      } else {
        SubsequenceKeepsUnique(a, b[1..]);
      }
    }
  }

  // ---------------------------------------------------------------------
  // Event handling
  // ---------------------------------------------------------------------

  /** The system line the client appends when someone enters the conversation. */
  function EnteredNotice(conversationId: string, name: string, now: nat, iso: string): (m: ClientMessage)
    ensures m.senderType == SystemSender && m.senderId == "system" && m.contentType == TextContent
    ensures m.conversationId == conversationId && m.content == name + " entrou na conversa"
    ensures !m.delivered && !m.read
  {
    ClientMessage("system-" + NatToString(now), conversationId, "system", "Sistema", SystemSender,
                  name + " entrou na conversa", TextContent, iso, false, false)
  }

  function MarkDelivered(m: ClientMessage): ClientMessage { m.(delivered := true) }
  function MarkRead(m: ClientMessage): ClientMessage { m.(read := true) }

  /** Apply `f` to the messages with the given id and leave the others alone. */
  function MapMatching(ms: seq<ClientMessage>, id: string, f: ClientMessage -> ClientMessage): (r: seq<ClientMessage>)
    ensures |r| == |ms|
    ensures forall i :: 0 <= i < |ms| ==> r[i] == if ms[i].id == id then f(ms[i]) else ms[i]
  {
    if ms == [] then [] else [if ms[0].id == id then f(ms[0]) else ms[0]] + MapMatching(ms[1..], id, f)
  }

  datatype Transition = Transition(state: ClientState, effects: seq<Effect>)

  /** One server event on a hook opened for `conversationId`. */
  function Step(conversationId: string, s: ClientState, e: ServerEvent): (t: Transition)
    ensures e.Connected? ==> t.state.connected && !t.state.reconnecting && t.effects == [EmitJoin(conversationId)]
    ensures e.Disconnected? ==> !t.state.connected && t.state == s.(connected := false)
    ensures e.JoinAck? && !e.success ==> t.state == s
    ensures e.JoinAck? && e.success ==>
      t.state == s.(messages := if e.history.Some? then e.history.value else [])
    ensures e.MessageReceived? ==>
      t.state == s.(messages := s.messages + [e.message]) && t.effects == [OnMessage(e.message)]
    ensures e.MessageDelivered? ==>
      && t.state == s.(messages := t.state.messages)
      && |t.state.messages| == |s.messages|
      && forall i :: 0 <= i < |s.messages| ==>
           t.state.messages[i] == if s.messages[i].id == e.messageId then s.messages[i].(delivered := true) else s.messages[i]
    ensures e.MessageRead? ==>
      && t.state == s.(messages := t.state.messages)
      && |t.state.messages| == |s.messages|
      && forall i :: 0 <= i < |s.messages| ==>
           t.state.messages[i] == if s.messages[i].id == e.messageId then s.messages[i].(read := true) else s.messages[i]
    ensures e.ConnectError? ==> t == Transition(s, [OnError])
    ensures e.ReconnectAttempt? ==> t == Transition(s.(reconnecting := true), [])
    ensures e.QueueUpdate? ==> t == Transition(s.(queueStatus := Some(e.status)), [OnQueueUpdate(e.status)])
    ensures e.ConversationAssigned? ==>
      && t.state == s.(queueStatus := None, messages := t.state.messages)
      && t.state.messages == s.messages + [EnteredNotice(conversationId, e.agentName, e.now, e.iso)]
      && t.effects == []
    ensures e.UserJoined? ==>
      t == Transition(s.(messages := s.messages + [EnteredNotice(conversationId, e.joinedName, e.now, e.iso)]), [])
    ensures e.TypingChanged? ==>
      && t.state == s.(typing := t.state.typing)
      && TypingMap(t.state.typing) == (
           if e.isTyping
           then TypingMap(s.typing)[e.userId := TypingUser(e.userId, OrElse(e.userName, AnonymousTypist), true)]
           else TypingMap(s.typing) - {e.userId})
      && t.effects == [OnTyping(TypingUser(e.userId, OrElse(e.userName, AnonymousTypist), e.isTyping))]
    ensures e.UserLeft? ==>
      && t.state == s.(typing := t.state.typing)
      && TypingMap(t.state.typing) == TypingMap(s.typing) - {e.userId}
  {
    match e
    case Connected => Transition(s.(connected := true, reconnecting := false), [EmitJoin(conversationId)])
    case Disconnected => Transition(s.(connected := false), [])
    case ConnectError => Transition(s, [OnError])
    case ReconnectAttempt => Transition(s.(reconnecting := true), [])
    case JoinAck(success, history) =>
      if success then Transition(s.(messages := if history.Some? then history.value else []), [])
      else Transition(s, [])
    case MessageReceived(m) => Transition(s.(messages := s.messages + [m]), [OnMessage(m)])
    case MessageDelivered(id) => Transition(s.(messages := MapMatching(s.messages, id, MarkDelivered)), [])
    case MessageRead(id) => Transition(s.(messages := MapMatching(s.messages, id, MarkRead)), [])
    case QueueUpdate(status) => Transition(s.(queueStatus := Some(status)), [OnQueueUpdate(status)])
    case ConversationAssigned(_, name, now, iso) =>
      Transition(s.(queueStatus := None, messages := s.messages + [EnteredNotice(conversationId, name, now, iso)]), [])
    case TypingChanged(userId, userName, isTyping) =>
      var entry := TypingUser(userId, OrElse(userName, AnonymousTypist), isTyping);
      if isTyping then
        UpsertIsMapSet(s.typing, entry);
        Transition(s.(typing := Upsert(s.typing, entry)), [OnTyping(entry)])
      else
        UnsetIsMapRemove(s.typing, userId);
        Transition(s.(typing := Unset(s.typing, userId)), [OnTyping(entry)])
    case UserJoined(_, name, now, iso) =>
      Transition(s.(messages := s.messages + [EnteredNotice(conversationId, name, now, iso)]), [])
    case UserLeft(userId) =>
      UnsetIsMapRemove(s.typing, userId);
      Transition(s.(typing := Unset(s.typing, userId)), [])
  }

  /** No event lists a user twice among the typists. */
  lemma StepKeepsTypistsUnique(conversationId: string, s: ClientState, e: ServerEvent)
    requires UniqueTypists(s.typing)
    ensures UniqueTypists(Step(conversationId, s, e).state.typing)
  {
    match e
    case TypingChanged(userId, userName, isTyping) =>
      if isTyping {
        UpsertKeepsUnique(s.typing, TypingUser(userId, OrElse(userName, AnonymousTypist), isTyping));
      } else {
        UnsetKeepsUnique(s.typing, userId);
      }
    case UserLeft(userId) =>
      UnsetKeepsUnique(s.typing, userId);
    case _ =>
  }

  /** A delivery or read receipt seen twice changes nothing the second time. */
  lemma ReceiptsIdempotent(conversationId: string, s: ClientState, e: ServerEvent)
    requires e.MessageDelivered? || e.MessageRead?
    ensures Step(conversationId, Step(conversationId, s, e).state, e).state == Step(conversationId, s, e).state
  {
    var once := Step(conversationId, s, e).state;
    var twice := Step(conversationId, once, e).state;
    assert |twice.messages| == |once.messages|;
    assert forall i :: 0 <= i < |once.messages| ==> twice.messages[i] == once.messages[i];
  }

  /**
   * The hook: without a conversation id no socket is opened and the state
   * stays initial; otherwise the events are handled in order.
   */
  function Run(conversationId: Option<string>, events: seq<ServerEvent>): (r: ClientState)
    ensures !Given(conversationId) ==> r == Initial
    ensures UniqueTypists(r.typing)
    decreases |events|
  {
    if !Given(conversationId) || events == [] then Initial
    else
      var before := Run(conversationId, events[..|events| - 1]);
      StepKeepsTypistsUnique(conversationId.value, before, events[|events| - 1]);
      Step(conversationId.value, before, events[|events| - 1]).state
  }

  /**
   * `sendMessage`: nothing is sent without a socket or a conversation id;
   * otherwise one request with the content, as text unless told otherwise.
   */
  function SendMessage(hasSocket: bool, conversationId: Option<string>, content: string, contentType: Option<ContentType>): (r: Option<Effect>)
    ensures r.None? <==> !hasSocket || !Given(conversationId)
    ensures r.Some? ==>
      && r.value.EmitSendMessage?
      && r.value.conversationId == conversationId.value && r.value.content == content
      && r.value.contentType == (if contentType.Some? then contentType.value else TextContent)
  {
    if !hasSocket || !Given(conversationId) then None
    else Some(EmitSendMessage(conversationId.value, content, contentType.GetOr(TextContent)))
  }
}
