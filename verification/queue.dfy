/**
 * The conversation queue of the chat service: new conversations take the
 * position after the last queued one, the waiting conversations of a company
 * are renumbered densely by start time when one is assigned, and the active
 * queue lists waiting and open conversations by position.
 *
 * Store ordering follows PostgreSQL's defaults: a row without a position
 * sorts as larger than every position, so it comes last in ascending order
 * and first in descending order; rows with equal sort keys keep store order.
 */
module Queue {
  import opened Base
  import opened Records
  import opened Sorting

  /** Minutes of expected wait per place in the queue. */
  const MinutesPerPosition: int := 5

  function EstimateWaitTime(position: int): int {
    position * MinutesPerPosition
  }

  /** Conversations that hold a place in the queue. */
  predicate InQueue(c: Conversation) {
    c.status == Waiting || c.status == Open
  }

  predicate QueuedIn(c: Conversation, companyId: string) {
    c.companyId == companyId && InQueue(c)
  }

  // ---------------------------------------------------------------------
  // Position of a new conversation.
  // ---------------------------------------------------------------------

  /** The largest position held by a waiting or open conversation of the company. */
  function MaxPosition(cs: seq<Conversation>, companyId: string): (r: Option<int>)
    ensures r.None? <==> forall c :: c in cs && QueuedIn(c, companyId) ==> c.queuePosition.None?
    ensures r.Some? ==> exists c :: c in cs && QueuedIn(c, companyId) && c.queuePosition == r
    ensures r.Some? ==> forall c :: c in cs && QueuedIn(c, companyId) && c.queuePosition.Some? ==>
                          c.queuePosition.value <= r.value
  {
    if cs == [] then None
    else
      var rest := MaxPosition(cs[1..], companyId);
      var c := cs[0];
      assert forall d :: d in cs <==> d == c || d in cs[1..];
      if !QueuedIn(c, companyId) || c.queuePosition.None? then rest
      else if rest.Some? && rest.value >= c.queuePosition.value then rest
      else c.queuePosition
  }

  /** Whether a waiting or open conversation of the company has no position. */
  predicate HasPositionless(cs: seq<Conversation>, companyId: string) {
    exists c :: c in cs && QueuedIn(c, companyId) && c.queuePosition.None?
  }

  /**
   * Position for a new conversation, `(last?.queuePosition || 0) + 1` over
   * the company's queue read by descending position. A queued conversation
   * without a position is read first and counts as 0, so the new one gets
   * 1; otherwise it gets one past the largest position, and 1 on an empty
   * queue.
   */
  function NextPosition(st: Store, companyId: string): (r: int)
    ensures HasPositionless(st.conversations, companyId) ==> r == 1
    ensures !HasPositionless(st.conversations, companyId) ==>
      && (forall c :: c in st.conversations && QueuedIn(c, companyId) ==> c.queuePosition.value < r)
      && ((forall c :: c in st.conversations ==> !QueuedIn(c, companyId)) ==> r == 1)
      && ((exists c :: c in st.conversations && QueuedIn(c, companyId)) ==>
            exists c :: c in st.conversations && QueuedIn(c, companyId) && c.queuePosition == Some(r - 1))
  {
    if HasPositionless(st.conversations, companyId) then 1
    else MaxPosition(st.conversations, companyId).GetOr(0) + 1
  }

  /**
   * A queue holding a conversation without a position hands out position 1
   * again, next to a conversation already at 1.
   */
  lemma PositionlessQueueRepeatsFirst(st: Store, companyId: string, numbered: Conversation, positionless: Conversation)
    requires numbered in st.conversations && QueuedIn(numbered, companyId) && numbered.queuePosition == Some(1)
    requires positionless in st.conversations && QueuedIn(positionless, companyId) && positionless.queuePosition.None?
    ensures NextPosition(st, companyId) == numbered.queuePosition.value
  {
  }

  // ---------------------------------------------------------------------
  // Starting a conversation.
  // ---------------------------------------------------------------------

  datatype StartConversationDto = StartConversationDto(
    clientUserId: Option<string>,
    clientName: Option<string>,
    clientEmail: Option<string>,
    initialMessage: Option<string>,
    metadata: Option<map<string, MetaValue>>)

  datatype StartResponse = StartResponse(
    conversationId: string,
    queuePosition: int,
    status: ConversationStatus,
    estimatedWaitTime: int)

  /**
   * Create a waiting conversation at the next position, plus the client's
   * first message when one is given. `conversationId` and `messageId` are
   * the ids the store generates.
   */
  function StartConversation(st: Store, dto: StartConversationDto, companyId: string,
                             conversationId: string, messageId: string, now: Time): (r: (Store, StartResponse))
    ensures var (st', resp) := r;
      && |st'.conversations| == |st.conversations| + 1
      && st'.conversations[..|st.conversations|] == st.conversations
      && var c := st'.conversations[|st.conversations|];
      && c.id == conversationId && c.companyId == companyId
      && c.status == Waiting && c.startedAt == now && c.closedAt.None? && c.agentUserId.None?
      && c.queuePosition == Some(resp.queuePosition)
      && c.clientUserId == (if Given(dto.clientUserId) then dto.clientUserId else None)
      && c.metadata == (if dto.metadata.Some? then dto.metadata.value else map[])
      && resp.queuePosition == NextPosition(st, companyId)
      && resp.estimatedWaitTime == MinutesPerPosition * resp.queuePosition
      && resp.status == Waiting && resp.conversationId == conversationId
    ensures var st' := r.0;
      && st'.companies == st.companies && st'.users == st.users && st'.evaluations == st.evaluations
      && st'.tickets == st.tickets && st'.auditLogs == st.auditLogs
    ensures Given(dto.initialMessage) ==>
      |r.0.messages| == |st.messages| + 1 && r.0.messages[..|st.messages|] == st.messages
      && var m := r.0.messages[|st.messages|];
      && m.id == messageId && m.conversationId == conversationId && m.senderType == "client"
      && m.contentText == dto.initialMessage.value && m.content.kind == Some("text")
      && m.content.body == dto.initialMessage && m.senderId == r.0.conversations[|st.conversations|].clientUserId
    ensures !Given(dto.initialMessage) ==> r.0.messages == st.messages
  {
    var position := NextPosition(st, companyId);
    var client := if Given(dto.clientUserId) then dto.clientUserId else None;
    var conv := Conversation(conversationId, companyId, client, None, Waiting, Some(position),
                             now, None, if dto.metadata.Some? then dto.metadata.value else map[]);
    var withConv := st.(conversations := st.conversations + [conv]);
    var st' :=
      if Given(dto.initialMessage) then
        var text := dto.initialMessage.value;
        var m := Message(messageId, conversationId, client, "client", text,
                         PlainContent("text", text, None, now), None, None, now);
        withConv.(messages := st.messages + [m])
      else withConv;
    (st', StartResponse(conversationId, position, Waiting, EstimateWaitTime(position)))
  }

  // ---------------------------------------------------------------------
  // Queue status of one conversation.
  // ---------------------------------------------------------------------

  datatype QueueStatus = QueueStatus(
    conversationId: string,
    status: ConversationStatus,
    queuePosition: Option<int>,
    agentName: Option<string>,
    lastMessage: Option<Message>,
    estimatedWaitTime: Option<int>)

  /**
   * `getQueueStatus`: the stored status and position, the assigned agent's
   * name, the newest message, and a wait estimate while waiting.
   */
  function GetQueueStatus(st: Store, conversationId: string): (r: Result<QueueStatus>)
    ensures FindConversation(st, conversationId).None? <==> r.Err?
    ensures r.Err? ==> r.error == Thrown("Conversation not found")
    ensures r.Ok? ==>
      var c := FindConversation(st, conversationId).value;
      && r.value.conversationId == conversationId
      && r.value.status == c.status
      && r.value.queuePosition == c.queuePosition
      && (c.status == Waiting <==> r.value.estimatedWaitTime.Some?)
      && (c.status == Waiting ==> r.value.estimatedWaitTime.value == MinutesPerPosition * c.queuePosition.GetOr(0))
      && (r.value.lastMessage.None? <==> MessagesOf(st, conversationId) == [])
      && (r.value.lastMessage.Some? ==>
            && r.value.lastMessage.value in MessagesOf(st, conversationId)
            && forall m :: m in MessagesOf(st, conversationId) ==> m.createdAt <= r.value.lastMessage.value.createdAt)
      && (r.value.agentName.Some? <==> c.agentUserId.Some? && FindUser(st, c.agentUserId.value).Some?)
      && (r.value.agentName.Some? ==> r.value.agentName.value == FindUser(st, c.agentUserId.value).value.name)
  {
    match FindConversation(st, conversationId)
    case None => Err(Thrown("Conversation not found"))
    case Some(c) =>
      var agent := if c.agentUserId.Some? then FindUser(st, c.agentUserId.value) else None;
      Ok(QueueStatus(
        c.id, c.status, c.queuePosition,
        if agent.Some? then Some(agent.value.name) else None,
        Newest(MessagesOf(st, conversationId)),
        if c.status == Waiting then Some(EstimateWaitTime(c.queuePosition.GetOr(0))) else None))
  }

  // ---------------------------------------------------------------------
  // Dense renumbering of the waiting conversations.
  // ---------------------------------------------------------------------

  /** Conversations `reorganizeQueue` renumbers: the company's waiting ones. */
  predicate Renumbered(c: Conversation, companyId: string) {
    c.companyId == companyId && c.status == Waiting
  }

  function StartedAt(c: Conversation): int { c.startedAt }

  function WaitingOf(cs: seq<Conversation>, companyId: string): (r: seq<Conversation>)
    ensures forall c :: c in r <==> c in cs && Renumbered(c, companyId)
    ensures |r| <= |cs|
  {
    if cs == [] then []
    else (if Renumbered(cs[0], companyId) then [cs[0]] else []) + WaitingOf(cs[1..], companyId)
  }

  /** The waiting conversations in the order they get their new positions. */
  function QueueOrder(st: Store, companyId: string): seq<Conversation> {
    SortBy(WaitingOf(st.conversations, companyId), StartedAt)
  }

  /** Index of the first conversation with `id`, or `|order|` when there is none. */
  function IndexOfId(order: seq<Conversation>, id: string): (k: nat)
    ensures k <= |order|
    ensures k < |order| ==> order[k].id == id
    ensures forall j :: 0 <= j < k ==> order[j].id != id
  {
    if order == [] then 0
    else if order[0].id == id then 0
    else 1 + IndexOfId(order[1..], id)
  }

  function Renumber(order: seq<Conversation>, companyId: string, c: Conversation): (d: Conversation)
    ensures d.id == c.id && d.companyId == c.companyId && d.status == c.status && d.startedAt == c.startedAt
  {
    if Renumbered(c, companyId) then c.(queuePosition := Some(IndexOfId(order, c.id) + 1)) else c
  }

  /** `reorganizeQueue`: the i-th waiting conversation by start time gets position i + 1. */
  function Reorganize(st: Store, companyId: string): (r: Store)
    ensures r == st.(conversations := r.conversations)
    ensures |r.conversations| == |st.conversations|
    ensures forall i :: 0 <= i < |st.conversations| && !Renumbered(st.conversations[i], companyId) ==>
              r.conversations[i] == st.conversations[i]
    ensures forall i :: 0 <= i < |st.conversations| && Renumbered(st.conversations[i], companyId) ==>
              r.conversations[i].queuePosition.Some? &&
              r.conversations[i] == st.conversations[i].(queuePosition := r.conversations[i].queuePosition)
  {
    st.(conversations := Map(RenumberWith(QueueOrder(st, companyId), companyId), st.conversations))
  }

  function RenumberWith(order: seq<Conversation>, companyId: string): Conversation -> Conversation {
    (c: Conversation) => Renumber(order, companyId, c)
  }

  lemma {:induction false} IndexOfIdMember(order: seq<Conversation>, c: Conversation)
    requires KeysDistinct(order, ConversationId)
    requires c in order
    ensures IndexOfId(order, c.id) < |order| && order[IndexOfId(order, c.id)] == c
  {
    if order[0] != c {
      assert order[0].id != c.id by {
        var j :| 0 <= j < |order| && order[j] == c;
        assert ConversationId(order[0]) != ConversationId(order[j]);
      }
      assert c in order[1..];
      IndexOfIdMember(order[1..], c);
    }
  }

  lemma {:induction false} WaitingOfDistinct(cs: seq<Conversation>, companyId: string)
    requires KeysDistinct(cs, ConversationId)
    ensures KeysDistinct(WaitingOf(cs, companyId), ConversationId)
  {
    if cs != [] {
      WaitingOfDistinct(cs[1..], companyId);
      var w := WaitingOf(cs, companyId);
      var rest := WaitingOf(cs[1..], companyId);
      if Renumbered(cs[0], companyId) {
        forall j | 0 < j < |w| ensures w[0].id != w[j].id {
          assert w[j] in rest;
          var k :| 0 <= k < |cs[1..]| && cs[1..][k] == w[j];
          assert ConversationId(cs[0]) != ConversationId(cs[k + 1]);
        }
      }
    }
  }

  lemma QueueOrderFacts(st: Store, companyId: string)
    requires KeysDistinct(st.conversations, ConversationId)
    ensures var order := QueueOrder(st, companyId);
      && KeysDistinct(order, ConversationId)
      && SortedBy(order, StartedAt)
      && |order| == |WaitingOf(st.conversations, companyId)|
      && forall c :: c in order <==> c in st.conversations && Renumbered(c, companyId)
  {
    var w := WaitingOf(st.conversations, companyId);
    WaitingOfDistinct(st.conversations, companyId);
    SortByKeysDistinct(w, StartedAt, ConversationId);
    forall c ensures c in QueueOrder(st, companyId) <==> c in w {
      SortByMembers(w, StartedAt, c);
    }
  }

  /** The position a renumbered conversation receives is its rank in the queue order. */
  lemma RankInOrder(st: Store, companyId: string, i: int)
    requires KeysDistinct(st.conversations, ConversationId)
    requires 0 <= i < |st.conversations| && Renumbered(st.conversations[i], companyId)
    ensures var order := QueueOrder(st, companyId); var k := IndexOfId(order, st.conversations[i].id);
      && k < |order| && order[k] == st.conversations[i]
      && Reorganize(st, companyId).conversations[i].queuePosition == Some(k + 1)
  {
    QueueOrderFacts(st, companyId);
    IndexOfIdMember(QueueOrder(st, companyId), st.conversations[i]);
  }

  /** After renumbering, each waiting conversation of the company holds a position in 1..N. */
  lemma ReorganizeInRange(st: Store, companyId: string, i: int)
    requires KeysDistinct(st.conversations, ConversationId)
    requires 0 <= i < |st.conversations| && Renumbered(st.conversations[i], companyId)
    ensures var r := Reorganize(st, companyId).conversations;
      1 <= r[i].queuePosition.GetOr(0) <= |WaitingOf(st.conversations, companyId)|
  {
    QueueOrderFacts(st, companyId);
    RankInOrder(st, companyId, i);
  }

  /** No two waiting conversations of the company share a position after renumbering. */
  lemma ReorganizeInjective(st: Store, companyId: string, i: int, j: int)
    requires KeysDistinct(st.conversations, ConversationId)
    requires 0 <= i < |st.conversations| && Renumbered(st.conversations[i], companyId)
    requires 0 <= j < |st.conversations| && Renumbered(st.conversations[j], companyId)
    requires i != j
    ensures var r := Reorganize(st, companyId).conversations;
      r[i].queuePosition != r[j].queuePosition
  {
    var cs := st.conversations;
    assert cs[i].id != cs[j].id by {
      if i < j {
        assert ConversationId(cs[i]) != ConversationId(cs[j]);
      } else {
        assert ConversationId(cs[j]) != ConversationId(cs[i]);
      }
    }
    var order := QueueOrder(st, companyId);
    RankInOrder(st, companyId, i);
    RankInOrder(st, companyId, j);
    var p := IndexOfId(order, cs[i].id);
    var q := IndexOfId(order, cs[j].id);
    assert order[p].id == cs[i].id && order[q].id == cs[j].id;
    assert p != q;
  }

  /** Every position 1..N is taken by some waiting conversation of the company. */
  lemma ReorganizeSurjective(st: Store, companyId: string, k: int)
    requires KeysDistinct(st.conversations, ConversationId)
    requires 1 <= k <= |WaitingOf(st.conversations, companyId)|
    ensures var r := Reorganize(st, companyId).conversations;
      exists i :: 0 <= i < |r| && Renumbered(r[i], companyId) && r[i].queuePosition == Some(k)
  {
    var i := HolderOf(st, companyId, k);
    var r := Reorganize(st, companyId).conversations;
    assert Renumbered(r[i], companyId) && r[i].queuePosition == Some(k);
  }

  /** The store index of the conversation that is k-th in the queue order. */
  lemma HolderOf(st: Store, companyId: string, k: int) returns (i: int)
    requires KeysDistinct(st.conversations, ConversationId)
    requires 1 <= k <= |WaitingOf(st.conversations, companyId)|
    ensures 0 <= i < |st.conversations| && Renumbered(st.conversations[i], companyId)
    ensures Reorganize(st, companyId).conversations[i].queuePosition == Some(k)
  {
    QueueOrderFacts(st, companyId);
    i := HolderIndex(QueueOrder(st, companyId), st.conversations, k);
    RankInOrder(st, companyId, i);
  }

  /** Where the k-th conversation of an order drawn from `cs` sits in `cs`. */
  lemma HolderIndex(order: seq<Conversation>, cs: seq<Conversation>, k: int) returns (i: int)
    requires KeysDistinct(order, ConversationId)
    requires 1 <= k <= |order|
    requires forall c :: c in order ==> c in cs
    ensures 0 <= i < |cs| && cs[i] == order[k - 1] && cs[i] in order
    ensures IndexOfId(order, cs[i].id) == k - 1
  {
    assert order[k - 1] in order;
    IndexOfIdAt(order, k - 1);
    i :| 0 <= i < |cs| && cs[i] == order[k - 1];
  }

  lemma {:induction false} IndexOfIdAt(order: seq<Conversation>, k: int)
    requires KeysDistinct(order, ConversationId)
    requires 0 <= k < |order|
    ensures IndexOfId(order, order[k].id) == k
  {
  }

  /** A conversation that started earlier gets a smaller position. */
  lemma ReorganizeRespectsStartOrder(st: Store, companyId: string, i: int, j: int)
    requires KeysDistinct(st.conversations, ConversationId)
    requires 0 <= i < |st.conversations| && 0 <= j < |st.conversations|
    requires Renumbered(st.conversations[i], companyId) && Renumbered(st.conversations[j], companyId)
    requires st.conversations[i].startedAt < st.conversations[j].startedAt
    ensures var r := Reorganize(st, companyId).conversations;
      r[i].queuePosition.GetOr(0) < r[j].queuePosition.GetOr(0)
  {
    var order := QueueOrder(st, companyId);
    QueueOrderFacts(st, companyId);
    RankInOrder(st, companyId, i);
    RankInOrder(st, companyId, j);
    var p := IndexOfId(order, st.conversations[i].id);
    var q := IndexOfId(order, st.conversations[j].id);
    assert order[p] == st.conversations[i] && order[q] == st.conversations[j];
  }

  lemma {:induction false} WaitingOfMap(cs: seq<Conversation>, companyId: string, f: Conversation -> Conversation)
    requires forall c :: Renumbered(f(c), companyId) == Renumbered(c, companyId)
    ensures WaitingOf(Map(f, cs), companyId) == Map(f, WaitingOf(cs, companyId))
  {
    if cs != [] {
      assert Map(f, cs)[1..] == Map(f, cs[1..]);
      WaitingOfMap(cs[1..], companyId, f);
      var head := if Renumbered(cs[0], companyId) then [cs[0]] else [];
      assert Map(f, head + WaitingOf(cs[1..], companyId)) == Map(f, head) + Map(f, WaitingOf(cs[1..], companyId));
    }
  }

  lemma {:induction false} IndexOfIdMap(order: seq<Conversation>, f: Conversation -> Conversation, id: string)
    requires forall c :: f(c).id == c.id
    ensures IndexOfId(Map(f, order), id) == IndexOfId(order, id)
  {
    if order != [] {
      assert Map(f, order)[1..] == Map(f, order[1..]);
      IndexOfIdMap(order[1..], f, id);
    }
  }

  /** Renumbering by the renumbered order leaves a renumbered conversation as it is. */
  lemma RenumberTwice(order: seq<Conversation>, companyId: string, c: Conversation)
    ensures var f := RenumberWith(order, companyId);
      Renumber(Map(f, order), companyId, f(c)) == f(c)
  {
    IndexOfIdMap(order, RenumberWith(order, companyId), c.id);
  }

  /** Renumbering twice gives the same numbering as renumbering once. */
  lemma ReorganizeIdempotent(st: Store, companyId: string)
    ensures Reorganize(Reorganize(st, companyId), companyId) == Reorganize(st, companyId)
  {
    var order := QueueOrder(st, companyId);
    var f := RenumberWith(order, companyId);
    var r := Reorganize(st, companyId);
    WaitingOfMap(st.conversations, companyId, f);
    SortByMap(WaitingOf(st.conversations, companyId), StartedAt, f);
    var order' := QueueOrder(r, companyId);
    assert order' == Map(f, order);
    var g := RenumberWith(order', companyId);
    forall c ensures g(f(c)) == f(c) {
      RenumberTwice(order, companyId, c);
    }
    var cs2 := Map(g, r.conversations);
    assert |cs2| == |r.conversations|;
    forall i | 0 <= i < |cs2| ensures cs2[i] == r.conversations[i] {
      assert r.conversations[i] == f(st.conversations[i]);
    }
  }

  // ---------------------------------------------------------------------
  // Updating a conversation's queue fields.
  // ---------------------------------------------------------------------

  datatype UpdateQueueDto = UpdateQueueDto(
    status: Option<ConversationStatus>,
    queuePosition: Option<int>,
    agentUserId: Option<string>)

  /** The record after the update: absent fields stay as they were. */
  function ApplyUpdate(c: Conversation, dto: UpdateQueueDto, now: Time): (d: Conversation)
    ensures d.id == c.id && d.companyId == c.companyId && d.startedAt == c.startedAt
    ensures d.clientUserId == c.clientUserId && d.metadata == c.metadata
    ensures d.status == (if dto.status.Some? then dto.status.value else c.status)
    ensures d.queuePosition == (if dto.queuePosition.Some? then dto.queuePosition else c.queuePosition)
    ensures d.agentUserId == (if dto.agentUserId.Some? then dto.agentUserId else c.agentUserId)
    ensures dto.status == Some(Closed) ==> d.closedAt == Some(now)
    ensures dto.status != Some(Closed) ==> d.closedAt == c.closedAt
  {
    c.(status := if dto.status.Some? then dto.status.value else c.status,
       queuePosition := if dto.queuePosition.Some? then dto.queuePosition else c.queuePosition,
       agentUserId := if dto.agentUserId.Some? then dto.agentUserId else c.agentUserId,
       closedAt := if dto.status == Some(Closed) then Some(now) else c.closedAt)
  }

  /** Whether the update triggers renumbering: an assignment that names an agent. */
  predicate ReorganizesOn(dto: UpdateQueueDto) {
    dto.status == Some(Assigned) && Given(dto.agentUserId)
  }

  /**
   * `updateQueuePosition`: write the given fields (any status is accepted),
   * stamp `closedAt` when closing, renumber the company's queue on
   * assignment, and return the record as written by the update.
   */
  function UpdateQueuePosition(st: Store, conversationId: string, dto: UpdateQueueDto, now: Time): (r: Result<(Store, Conversation)>)
    ensures FindConversation(st, conversationId).None? <==> r.Err?
    ensures r.Ok? ==>
      var c := FindConversation(st, conversationId).value;
      var (st', updated) := r.value;
      && updated == ApplyUpdate(c, dto, now)
      && st' == (if ReorganizesOn(dto) then Reorganize(PutConversation(st, updated), c.companyId)
                 else PutConversation(st, updated))
  {
    match FindConversation(st, conversationId)
    case None => Err(NotFound("Conversation " + conversationId))
    case Some(c) =>
      var updated := ApplyUpdate(c, dto, now);
      var written := PutConversation(st, updated);
      Ok((if ReorganizesOn(dto) then Reorganize(written, updated.companyId) else written, updated))
  }

  /** Closing stamps `closedAt`, and only closing does; the queue is renumbered only on assignment. */
  lemma UpdateClosesAndRenumbers(st: Store, conversationId: string, dto: UpdateQueueDto, now: Time)
    requires KeysDistinct(st.conversations, ConversationId)
    requires FindConversation(st, conversationId).Some?
    ensures var c := FindConversation(st, conversationId).value;
      var (st', updated) := UpdateQueuePosition(st, conversationId, dto, now).value;
      && (dto.status == Some(Closed) ==> updated.closedAt == Some(now))
      && (dto.status != Some(Closed) ==> updated.closedAt == c.closedAt)
      && (!ReorganizesOn(dto) ==> st'.conversations == PutConversation(st, updated).conversations)
  {
  }

  // ---------------------------------------------------------------------
  // The active queue listing.
  // ---------------------------------------------------------------------

  function Position(c: Conversation): int { c.queuePosition.GetOr(0) }

  function QueuedOf(cs: seq<Conversation>, companyId: string, positioned: bool): (r: seq<Conversation>)
    ensures forall c :: c in r <==> c in cs && QueuedIn(c, companyId) && c.queuePosition.Some? == positioned
  {
    if cs == [] then []
    else
      var c := cs[0];
      (if QueuedIn(c, companyId) && c.queuePosition.Some? == positioned then [c] else [])
      + QueuedOf(cs[1..], companyId, positioned)
  }

  function QueuedAt(companyId: string): Conversation -> bool {
    (c: Conversation) => QueuedIn(c, companyId)
  }

  /** The numbered and the unnumbered queued conversations together are the queued ones, each as often. */
  lemma {:induction false} QueuedOfSplit(cs: seq<Conversation>, companyId: string)
    ensures multiset(QueuedOf(cs, companyId, true)) + multiset(QueuedOf(cs, companyId, false))
            == multiset(Filter(QueuedAt(companyId), cs))
  {
    if cs != [] {
      QueuedOfSplit(cs[1..], companyId);
      var c := cs[0];
      assert QueuedOf(cs, companyId, true)
             == (if QueuedIn(c, companyId) && c.queuePosition.Some? then [c] else []) + QueuedOf(cs[1..], companyId, true);
      assert QueuedOf(cs, companyId, false)
             == (if QueuedIn(c, companyId) && c.queuePosition.None? then [c] else []) + QueuedOf(cs[1..], companyId, false);
      assert Filter(QueuedAt(companyId), cs)
             == (if QueuedIn(c, companyId) then [c] else []) + Filter(QueuedAt(companyId), cs[1..]);
    }
  }

  /**
   * Waiting and open conversations of the company by ascending position;
   * as in PostgreSQL's ascending order, those without a position come last.
   */
  function ActiveOrder(st: Store, companyId: string): (r: seq<Conversation>)
    ensures multiset(r) == multiset(Filter(QueuedAt(companyId), st.conversations))
    ensures forall c :: c in r <==> c in st.conversations && QueuedIn(c, companyId)
    ensures forall i, j :: 0 <= i < j < |r| && r[j].queuePosition.Some? ==>
              r[i].queuePosition.Some? && Position(r[i]) <= Position(r[j])
  {
    var numbered := SortBy(QueuedOf(st.conversations, companyId, true), Position);
    var unnumbered := QueuedOf(st.conversations, companyId, false);
    forall c ensures c in numbered <==> c in QueuedOf(st.conversations, companyId, true) {
      SortByMembers(QueuedOf(st.conversations, companyId, true), Position, c);
    }
    QueuedOfSplit(st.conversations, companyId);
    numbered + unnumbered
  }

  datatype ActiveEntry = ActiveEntry(
    conversationId: string,
    position: nat,
    clientName: string,
    startedAt: Time,
    lastMessage: Option<string>,
    status: ConversationStatus)

  const AnonymousName := "Anônimo"

  function ClientName(st: Store, c: Conversation): (name: string)
    ensures name != ""
    ensures c.clientUserId.None? ==> name == AnonymousName
  {
    var client := if c.clientUserId.Some? then FindUser(st, c.clientUserId.value) else None;
    if client.Some? && client.value.name != "" then client.value.name else AnonymousName
  }

  function Entry(st: Store, c: Conversation, rank: nat): (e: ActiveEntry)
    ensures e.conversationId == c.id && e.position == rank && e.status == c.status
    ensures e.clientName == ClientName(st, c)
  {
    var last := Newest(MessagesOf(st, c.id));
    ActiveEntry(c.id, rank, ClientName(st, c), c.startedAt,
                if last.Some? && last.value.contentText != "" then Some(last.value.contentText) else None,
                c.status)
  }

  function Entries(st: Store, order: seq<Conversation>, first: nat): (r: seq<ActiveEntry>)
    ensures |r| == |order|
    ensures forall i :: 0 <= i < |order| ==> r[i] == Entry(st, order[i], first + i)
  {
    if order == [] then [] else [Entry(st, order[0], first)] + Entries(st, order[1..], first + 1)
  }

  /** Ranked entries carry their conversation's id, status and client name, ranked from 1. */
  lemma EntriesFields(st: Store, order: seq<Conversation>, companyId: string)
    requires forall c :: c in order ==> QueuedIn(c, companyId)
    ensures var r := Entries(st, order, 1);
      forall i :: 0 <= i < |r| ==>
        && r[i].position == i + 1 && r[i].conversationId == order[i].id && r[i].status == order[i].status
        && InQueue(order[i]) && r[i].clientName == ClientName(st, order[i])
  {
    var r := Entries(st, order, 1);
    forall i | 0 <= i < |r|
      ensures r[i].position == i + 1 && r[i].conversationId == order[i].id && r[i].status == order[i].status
      ensures InQueue(order[i]) && r[i].clientName == ClientName(st, order[i])
    {
      assert r[i] == Entry(st, order[i], 1 + i);
      assert order[i] in order;
    }
  }

  /** A conversation the order lists has an entry. */
  lemma EntryOf(st: Store, order: seq<Conversation>, c: Conversation)
    requires c in order
    ensures exists i :: 0 <= i < |Entries(st, order, 1)| && Entries(st, order, 1)[i].conversationId == c.id
  {
    var r := Entries(st, order, 1);
    var i :| 0 <= i < |order| && order[i] == c;
    assert r[i] == Entry(st, order[i], 1 + i);
  }

  /**
   * `getActiveQueue`: one entry per waiting or open conversation of the
   * company, ranked 1..N in queue order.
   */
  function GetActiveQueue(st: Store, companyId: string): (r: seq<ActiveEntry>)
    ensures |r| == |ActiveOrder(st, companyId)| == |Filter(QueuedAt(companyId), st.conversations)|
    ensures forall i :: 0 <= i < |r| ==> r[i].position == i + 1
    ensures forall i :: 0 <= i < |r| ==>
      var c := ActiveOrder(st, companyId)[i];
      && r[i].conversationId == c.id && r[i].status == c.status && InQueue(c)
      && (r[i].status == Waiting || r[i].status == Open)
      && r[i].clientName == ClientName(st, c)
    ensures forall c :: c in st.conversations && QueuedIn(c, companyId) ==>
      exists i :: 0 <= i < |r| && r[i].conversationId == c.id
  {
    var order := ActiveOrder(st, companyId);
    assert |order| == |multiset(order)| == |multiset(Filter(QueuedAt(companyId), st.conversations))|;
    EntriesFields(st, order, companyId);
    forall c | c in st.conversations && QueuedIn(c, companyId)
      ensures exists i :: 0 <= i < |Entries(st, order, 1)| && Entries(st, order, 1)[i].conversationId == c.id
    {
      EntryOf(st, order, c);
    }
    Entries(st, order, 1)
  }
}
