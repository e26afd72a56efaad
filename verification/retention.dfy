/**
 * The daily retention job: a table of per-entity policies, each turned into
 * a filter "date column older than N days, plus the policy's conditions";
 * matching rows are deleted, except users, whose personal data is
 * overwritten instead. Also the per-user LGPD compliance summary.
 */
module Retention {
  import opened Base
  import opened Records
  import Audit

  // ---------------------------------------------------------------------
  // Policies.
  // ---------------------------------------------------------------------

  /** The tables a policy can apply to. */
  datatype Entity = MessagesTable | ConversationsTable | AuditLogsTable | EvaluationsTable | TicketsTable | UsersTable

  function EntityName(e: Entity): string {
    match e
    case MessagesTable => "messages"
    case ConversationsTable => "conversations"
    case AuditLogsTable => "auditLogs"
    case EvaluationsTable => "evaluations"
    case TicketsTable => "tickets"
    case UsersTable => "users"
  }

  function ParseEntity(name: string): (r: Option<Entity>)
    ensures r.Some? ==> EntityName(r.value) == name
  {
    if name == "messages" then Some(MessagesTable)
    else if name == "conversations" then Some(ConversationsTable)
    else if name == "auditLogs" then Some(AuditLogsTable)
    else if name == "evaluations" then Some(EvaluationsTable)
    else if name == "tickets" then Some(TicketsTable)
    else if name == "users" then Some(UsersTable)
    else None
  }

  lemma EntityNamesRoundTrip(e: Entity)
    ensures ParseEntity(EntityName(e)) == Some(e)
  {
  }

  /** The date column a policy measures age by. */
  datatype DateField = CreatedAtField | LastActivityAtField

  /** The extra conditions a policy may carry. */
  datatype Condition =
    | ClosedOnly          // status is closed
    | WithoutLgpdActions  // the action is neither a data export nor a data deletion
    | ActiveClients       // not yet deleted, and role is client

  datatype RetentionPolicy = RetentionPolicy(
    entity: Entity,
    retentionDays: int,
    field: Option<DateField>,
    conditions: Option<Condition>)

  /**
   * The environment the job reads. A day count is absent when the variable
   * is unset or empty, which selects the default.
   */
  datatype Environment = Environment(
    messageDays: Option<int>,
    conversationDays: Option<int>,
    auditLogDays: Option<int>,
    evaluationDays: Option<int>,
    ticketDays: Option<int>,
    userDays: Option<int>,
    lgpdAutoDelete: Option<string>)

  const MessageRetentionDays := 365
  const ConversationRetentionDays := 730
  const AuditLogRetentionDays := 90
  const EvaluationRetentionDays := 180
  const TicketRetentionDays := 365
  const UserRetentionDays := 1095

  predicate LgpdAutoDelete(env: Environment) {
    env.lgpdAutoDelete == Some("true")
  }

  /** A table has the policy's date column and the columns its condition names. */
  predicate WellFormed(p: RetentionPolicy) {
    match p.entity
    case MessagesTable => p.field.GetOr(CreatedAtField) == CreatedAtField && p.conditions.None?
    case ConversationsTable => p.field.GetOr(CreatedAtField) == CreatedAtField && p.conditions.GetOr(ClosedOnly) == ClosedOnly
    case AuditLogsTable =>
      p.field.GetOr(CreatedAtField) == CreatedAtField && p.conditions.GetOr(WithoutLgpdActions) == WithoutLgpdActions
    case EvaluationsTable => p.field.GetOr(CreatedAtField) == CreatedAtField && p.conditions.None?
    case TicketsTable => p.field.GetOr(CreatedAtField) == CreatedAtField && p.conditions.GetOr(ClosedOnly) == ClosedOnly
    case UsersTable => p.conditions.GetOr(ActiveClients) == ActiveClients
  }

  /** The policy for an entity, the first one listed. */
  function PolicyFor(ps: seq<RetentionPolicy>, e: Entity): (r: Option<RetentionPolicy>)
    ensures r.Some? ==> r.value in ps && r.value.entity == e
    ensures r.None? <==> forall i :: 0 <= i < |ps| ==> ps[i].entity != e
  {
    if ps == [] then None
    else if ps[0].entity == e then Some(ps[0])
    else PolicyFor(ps[1..], e)
  }

  /** The policy table: five fixed policies, and users only when automatic LGPD deletion is switched on. */
  function InitializeRetentionPolicies(env: Environment): (ps: seq<RetentionPolicy>)
    ensures |ps| == if LgpdAutoDelete(env) then 6 else 5
    ensures forall i, j :: 0 <= i < j < |ps| ==> ps[i].entity != ps[j].entity
    ensures forall i :: 0 <= i < |ps| ==> WellFormed(ps[i])
    ensures PolicyFor(ps, UsersTable).Some? <==> LgpdAutoDelete(env)
  {
    var fixed := [
      RetentionPolicy(MessagesTable, env.messageDays.GetOr(MessageRetentionDays), None, None),
      RetentionPolicy(ConversationsTable, env.conversationDays.GetOr(ConversationRetentionDays), None, Some(ClosedOnly)),
      RetentionPolicy(AuditLogsTable, env.auditLogDays.GetOr(AuditLogRetentionDays), None, Some(WithoutLgpdActions)),
      RetentionPolicy(EvaluationsTable, env.evaluationDays.GetOr(EvaluationRetentionDays), None, None),
      RetentionPolicy(TicketsTable, env.ticketDays.GetOr(TicketRetentionDays), None, Some(ClosedOnly))
    ];
    var ps := if LgpdAutoDelete(env) then
      fixed + [RetentionPolicy(UsersTable, env.userDays.GetOr(UserRetentionDays), Some(LastActivityAtField), Some(ActiveClients))]
    else fixed;
    PolicyForAt(ps, |ps| - 1);
    ps
  }

  /** Every table but users always has a policy; the conditions are the ones documented. */
  lemma PolicyConditions(env: Environment)
    ensures var ps := InitializeRetentionPolicies(env);
      && PolicyFor(ps, MessagesTable).Some? && PolicyFor(ps, MessagesTable).value.conditions.None?
      && PolicyFor(ps, ConversationsTable).Some? && PolicyFor(ps, ConversationsTable).value.conditions == Some(ClosedOnly)
      && PolicyFor(ps, AuditLogsTable).Some? && PolicyFor(ps, AuditLogsTable).value.conditions == Some(WithoutLgpdActions)
      && PolicyFor(ps, EvaluationsTable).Some? && PolicyFor(ps, EvaluationsTable).value.conditions.None?
      && PolicyFor(ps, TicketsTable).Some? && PolicyFor(ps, TicketsTable).value.conditions == Some(ClosedOnly)
    ensures var ps := InitializeRetentionPolicies(env);
      LgpdAutoDelete(env) ==>
        PolicyFor(ps, UsersTable).value.field == Some(LastActivityAtField)
        && PolicyFor(ps, UsersTable).value.conditions == Some(ActiveClients)
        && PolicyFor(ps, UsersTable).value.retentionDays == env.userDays.GetOr(UserRetentionDays)
  {
    var ps := InitializeRetentionPolicies(env);
    PolicyForAt(ps, 0);
    PolicyForAt(ps, 1);
    PolicyForAt(ps, 2);
    PolicyForAt(ps, 3);
    PolicyForAt(ps, 4);
    PolicyForAt(ps, |ps| - 1);
  }

  /** With nothing set in the environment the day counts are the documented defaults. */
  lemma DefaultRetentionDays()
    ensures var ps := InitializeRetentionPolicies(Environment(None, None, None, None, None, None, None));
      && PolicyFor(ps, MessagesTable).value.retentionDays == 365
      && PolicyFor(ps, ConversationsTable).value.retentionDays == 730
      && PolicyFor(ps, AuditLogsTable).value.retentionDays == 90
      && PolicyFor(ps, EvaluationsTable).value.retentionDays == 180
      && PolicyFor(ps, TicketsTable).value.retentionDays == 365
      && PolicyFor(ps, UsersTable).None?
  {
    var ps := InitializeRetentionPolicies(Environment(None, None, None, None, None, None, None));
    PolicyConditions(Environment(None, None, None, None, None, None, None));
    PolicyForAt(ps, 0);
    PolicyForAt(ps, 1);
    PolicyForAt(ps, 2);
    PolicyForAt(ps, 3);
    PolicyForAt(ps, 4);
  }

  /** With one policy per entity, the lookup finds the policy at its index. */
  lemma {:induction false} PolicyForAt(ps: seq<RetentionPolicy>, i: int)
    requires forall a, b :: 0 <= a < b < |ps| ==> ps[a].entity != ps[b].entity
    requires 0 <= i < |ps|
    ensures PolicyFor(ps, ps[i].entity) == Some(ps[i])
  {
    if i > 0 {
      assert ps[1..][i - 1] == ps[i];
      PolicyForAt(ps[1..], i - 1);
    }
  }

  // ---------------------------------------------------------------------
  // The filter.
  // ---------------------------------------------------------------------

  /** The `where` object: the date column is older than `before`, and the condition holds. */
  datatype Where = Where(field: DateField, before: Time, condition: Option<Condition>)

  /** Whole days before `now`. */
  function Cutoff(now: Time, days: int): (c: Time)
    ensures days >= 0 ==> c <= now
    ensures c + days * DayMs == now
  {
    now - days * DayMs
  }

  function WhereFor(p: RetentionPolicy, now: Time): (w: Where)
    ensures w.field == (if p.field.Some? then p.field.value else CreatedAtField)
    ensures w.before == Cutoff(now, p.retentionDays) && w.condition == p.conditions
  {
    Where(p.field.GetOr(CreatedAtField), Cutoff(now, p.retentionDays), p.conditions)
  }

  function MessageDue(w: Where): Message -> bool {
    (m: Message) => m.createdAt < w.before
  }

  /**
   * A conversation's age is read from `startedAt`, the creation time the
   * retention statistics read for a conversation.
   */
  function ConversationDue(w: Where): Conversation -> bool {
    (c: Conversation) => c.startedAt < w.before && (w.condition == Some(ClosedOnly) ==> c.status == Closed)
  }

  function AuditLogDue(w: Where): AuditLog -> bool {
    (l: AuditLog) => l.createdAt < w.before && (w.condition == Some(WithoutLgpdActions) ==> !IsLgpdAction(l.action))
  }

  function EvaluationDue(w: Where): Evaluation -> bool {
    (e: Evaluation) => e.createdAt < w.before
  }

  function TicketDue(w: Where): Ticket -> bool {
    (t: Ticket) => t.createdAt < w.before && (w.condition == Some(ClosedOnly) ==> t.closed)
  }

  /** A null last-activity time is never older than anything. */
  function UserDue(w: Where): User -> bool {
    (u: User) =>
      (if w.field == LastActivityAtField then u.lastActivityAt.Some? && u.lastActivityAt.value < w.before
       else u.createdAt < w.before)
      && (w.condition == Some(ActiveClients) ==> !u.isDeleted && u.role == "client")
  }

  // ---------------------------------------------------------------------
  // Deletions.
  // ---------------------------------------------------------------------

  /** deleteMany: the rows that do not match stay, in order; the count is of those that matched. */
  function Purge<T(==)>(due: T -> bool, s: seq<T>): (r: (seq<T>, nat))
    ensures forall x :: x in r.0 ==> x in s && !due(x)
    ensures forall i :: 0 <= i < |s| && !due(s[i]) ==> s[i] in r.0
    ensures r.1 == |s| - |r.0|
    ensures r.1 == |Filter(due, s)|
    ensures IsSubsequence(r.0, s)
  {
    var kept := Filter(Not(due), s);
    FilterComplement(due, s);
    FilterIsSubsequence(Not(due), s);
    (kept, |s| - |kept|)
  }

  function ConversationIdOf(c: Conversation): string { c.id }

  /**
   * deleteConversations: the ids of the matching conversations; nothing
   * happens when there are none. Otherwise their messages, evaluations and
   * tickets go first, then the conversations themselves.
   */
  function DeleteConversations(st: Store, w: Where): (r: (Store, nat))
    ensures Filter(ConversationDue(w), st.conversations) == [] ==> r == (st, 0)
    ensures var ids := Map(ConversationIdOf, Filter(ConversationDue(w), st.conversations));
      && (forall c :: c in r.0.conversations <==> c in st.conversations && c.id !in ids)
      && (forall m :: m in r.0.messages <==> m in st.messages && m.conversationId !in ids)
      && (forall e :: e in r.0.evaluations <==> e in st.evaluations && e.conversationId !in ids)
      && (forall t :: t in r.0.tickets <==> t in st.tickets && t.conversationId !in ids)
    ensures r.1 == |st.conversations| - |r.0.conversations|
    ensures r.1 >= |Filter(ConversationDue(w), st.conversations)|
    ensures r.0.companies == st.companies && r.0.users == st.users && r.0.auditLogs == st.auditLogs
  {
    var due := Filter(ConversationDue(w), st.conversations);
    var ids := Map(ConversationIdOf, due);
    if |ids| == 0 then (st, 0)
    else
      var messages := Purge((m: Message) => m.conversationId in ids, st.messages).0;
      var evaluations := Purge((e: Evaluation) => e.conversationId in ids, st.evaluations).0;
      var tickets := Purge((t: Ticket) => t.conversationId in ids, st.tickets).0;
      var byId := (c: Conversation) => c.id in ids;
      var gone := Purge(byId, st.conversations);
      forall i | 0 <= i < |due| ensures byId(due[i]) {
        assert ids[i] == due[i].id;
      }
      FilterAll(byId, due);
      FilterFilter(ConversationDue(w), byId, st.conversations);
      FilterMonotone(Both(ConversationDue(w), byId), byId, st.conversations);
      (st.(messages := messages, evaluations := evaluations, tickets := tickets, conversations := gone.0), gone.1)
  }

  /** Every message, evaluation and ticket belongs to a conversation that exists. */
  predicate ReferencesIntact(st: Store) {
    && (forall m :: m in st.messages ==> exists c :: c in st.conversations && c.id == m.conversationId)
    && (forall e :: e in st.evaluations ==> exists c :: c in st.conversations && c.id == e.conversationId)
    && (forall t :: t in st.tickets ==> exists c :: c in st.conversations && c.id == t.conversationId)
  }

  /** Because dependants are removed with their conversations, no reference is left dangling. */
  lemma DeleteConversationsKeepsReferences(st: Store, w: Where)
    requires ReferencesIntact(st)
    ensures ReferencesIntact(DeleteConversations(st, w).0)
  {
    var r := DeleteConversations(st, w).0;
    var ids := Map(ConversationIdOf, Filter(ConversationDue(w), st.conversations));
    forall m | m in r.messages ensures exists c :: c in r.conversations && c.id == m.conversationId {
      var c :| c in st.conversations && c.id == m.conversationId;
      assert c in r.conversations;
    }
    forall e | e in r.evaluations ensures exists c :: c in r.conversations && c.id == e.conversationId {
      var c :| c in st.conversations && c.id == e.conversationId;
      assert c in r.conversations;
    }
    forall t | t in r.tickets ensures exists c :: c in r.conversations && c.id == t.conversationId {
      var c :| c in st.conversations && c.id == t.conversationId;
      assert c in r.conversations;
    }
  }

  // ---------------------------------------------------------------------
  // Anonymisation.
  // ---------------------------------------------------------------------

  const AnonymousName := "Usuário Removido"
  const ErasedPasswordHash := "DELETED"
  const SystemActor := "SYSTEM"
  const RetentionReason := "AUTOMATIC_RETENTION_POLICY"

  function AnonymousEmail(id: string): string {
    "deleted_" + id + "@anonymized.local"
  }

  /** Distinct users get distinct anonymous addresses. */
  lemma AnonymousEmailInjective(a: string, b: string)
    requires AnonymousEmail(a) == AnonymousEmail(b)
    ensures a == b
  {
    var ea := AnonymousEmail(a);
    var eb := AnonymousEmail(b);
    assert |a| == |b|;
    assert a == ea[8..8 + |a|];
    assert b == eb[8..8 + |b|];
  }

  /** The anonymisation rewrite: personal fields replaced, the account marked deleted now. */
  function Anonymized(u: User, now: Time): (a: User)
    ensures a.id == u.id && a.role == u.role && a.companyId == u.companyId
    ensures a.isDeleted && a.deletedAt == Some(now)
    ensures a.email == AnonymousEmail(u.id)
  {
    u.(email := AnonymousEmail(u.id), name := AnonymousName, passwordHash := ErasedPasswordHash,
       profilePhotoUrl := None, isDeleted := true, deletedAt := Some(now))
  }

  /** Nothing personal survives: two users alike apart from their personal data become the same record. */
  lemma AnonymizedForgetsPersonalData(u: User, v: User, now: Time)
    requires u.id == v.id && u.role == v.role && u.companyId == v.companyId
    requires u.lastActivityAt == v.lastActivityAt && u.createdAt == v.createdAt
    ensures Anonymized(u, now) == Anonymized(v, now)
  {
  }

  /** Anonymising twice at the same instant is anonymising once. */
  lemma AnonymizedIdempotent(u: User, now: Time)
    ensures Anonymized(Anonymized(u, now), now) == Anonymized(u, now)
  {
  }

  /** An anonymised user no longer matches a users filter with its condition. */
  lemma AnonymizedNotDue(u: User, now: Time, w: Where)
    requires w.condition == Some(ActiveClients)
    ensures !UserDue(w)(Anonymized(u, now))
  {
  }

  /**
   * The users policy picks only the role "client". Registration defaults
   * to "user", and the seed data holds "user", "agent" and "manager", none
   * of which the policy ever picks.
   */
  lemma UsersPolicySkipsKnownRoles(u: User, w: Where)
    requires w.condition == Some(ActiveClients)
    requires u.role == "user" || u.role == "agent" || u.role == "manager"
    ensures !UserDue(w)(u)
  {
  }

  function AnonymizeAt(now: Time): User -> User {
    (v: User) => Anonymized(v, now)
  }

  /** The user's update and its audit entry both go through. */
  function Anonymizes(updateFails: set<string>, logFails: set<string>): User -> bool {
    (u: User) => u.id !in updateFails && u.id !in logFails
  }

  /** The ids whose update goes through. */
  predicate Updated(candidates: seq<User>, updateFails: set<string>, id: string) {
    id !in updateFails && exists c :: c in candidates && c.id == id
  }

  /** One user: the anonymising update, then its audit entry; either step may fail. */
  function AnonymizeOne(st: Store, u: User, now: Time, iso: string,
                        updateFails: set<string>, logFails: set<string>, logId: string -> string): (r: (Store, bool))
    ensures r.1 <==> Anonymizes(updateFails, logFails)(u)
    ensures r.0.users == if u.id in updateFails then st.users else Replace(st.users, UserId, u.id, AnonymizeAt(now))
    ensures |r.0.auditLogs| == |st.auditLogs| + (if r.1 then 1 else 0)
    ensures r.0.auditLogs[..|st.auditLogs|] == st.auditLogs
    ensures forall k :: |st.auditLogs| <= k < |r.0.auditLogs| ==>
      r.0.auditLogs[k].action == DataDelete && r.0.auditLogs[k].actorId == SystemActor
    ensures r.0 == st.(users := r.0.users, auditLogs := r.0.auditLogs)
  {
    if u.id in updateFails then (st, false)
    else
      var updated := st.(users := Replace(st.users, UserId, u.id, AnonymizeAt(now)));
      var logged := Audit.LogEvent(updated, SystemActor, Audit.DataDeleted(u.id, Some(RetentionReason)), iso,
                                   logId(u.id), now, if u.id in logFails then Some("insert failed") else None);
      if logged.Ok? then (logged.value, true) else (updated, false)
  }

  /**
   * anonymizeInactiveUsers over the matching users in order. An update that
   * fails (`updateFails`) or an audit entry that fails (`logFails`) is
   * caught and the loop goes on; only users with both steps done are counted.
   */
  function AnonymizeUsers(st: Store, candidates: seq<User>, now: Time, iso: string,
                          updateFails: set<string>, logFails: set<string>, logId: string -> string): (r: (Store, nat))
    ensures r.1 == |Filter(Anonymizes(updateFails, logFails), candidates)|
    ensures |r.0.users| == |st.users|
    ensures forall i :: 0 <= i < |st.users| ==>
      r.0.users[i] == if Updated(candidates, updateFails, st.users[i].id) then Anonymized(st.users[i], now) else st.users[i]
    ensures |r.0.auditLogs| == |st.auditLogs| + r.1
    ensures r.0.auditLogs[..|st.auditLogs|] == st.auditLogs
    ensures forall k :: |st.auditLogs| <= k < |r.0.auditLogs| ==>
      r.0.auditLogs[k].action == DataDelete && r.0.auditLogs[k].actorId == SystemActor
    ensures r.0 == st.(users := r.0.users, auditLogs := r.0.auditLogs)
    decreases |candidates|
  {
    if candidates == [] then (st, 0)
    else
      var one := AnonymizeOne(st, candidates[0], now, iso, updateFails, logFails, logId);
      var rest := AnonymizeUsers(one.0, candidates[1..], now, iso, updateFails, logFails, logId);
      AnonymizeStep(st.users, candidates, one.0.users, rest.0.users, now, updateFails);
      AppendedLogs(st.auditLogs, one.0.auditLogs, rest.0.auditLogs);
      (rest.0, rest.1 + if one.1 then 1 else 0)
  }

  /** Logs appended in two rounds are appended to the original. */
  lemma AppendedLogs(a: seq<AuditLog>, b: seq<AuditLog>, c: seq<AuditLog>)
    requires |a| <= |b| <= |c| && b[..|a|] == a && c[..|b|] == b
    ensures c[..|a|] == a
    ensures forall k :: |a| <= k < |b| ==> c[k] == b[k]
  {
    assert c[..|a|] == c[..|b|][..|a|];
    forall k | |a| <= k < |b| ensures c[k] == b[k] {
      assert c[..|b|][k] == c[k];
    }
  }

  /** The first candidate's update composes with the updates of the rest. */
  lemma AnonymizeStep(users: seq<User>, candidates: seq<User>, after: seq<User>, r: seq<User>, now: Time,
                      updateFails: set<string>)
    requires candidates != []
    requires after == if candidates[0].id in updateFails then users
                       else Replace(users, UserId, candidates[0].id, AnonymizeAt(now))
    requires |r| == |after|
    requires forall i :: 0 <= i < |after| ==>
      r[i] == if Updated(candidates[1..], updateFails, after[i].id) then Anonymized(after[i], now) else after[i]
    ensures |r| == |users|
    ensures forall i :: 0 <= i < |users| ==>
      r[i] == if Updated(candidates, updateFails, users[i].id) then Anonymized(users[i], now) else users[i]
  {
    var first := candidates[0];
    assert first in candidates;
    forall i | 0 <= i < |users|
      ensures r[i] == if Updated(candidates, updateFails, users[i].id) then Anonymized(users[i], now) else users[i]
    {
      var u := users[i];
      assert after[i].id == u.id;
      if u.id == first.id && first.id !in updateFails {
        AnonymizedIdempotent(u, now);
      } else if Updated(candidates, updateFails, u.id) {
        var c :| c in candidates && c.id == u.id;
        assert c in candidates[1..];
      }
    }
  }

  // ---------------------------------------------------------------------
  // Applying policies.
  // ---------------------------------------------------------------------

  datatype RetentionResult = RetentionResult(entity: Entity, deletedCount: nat, retentionDays: int, cutoff: Time)

  /** What can go wrong outside the model's control, per run. */
  datatype Failures = Failures(
    policies: set<Entity>,      // the policy's queries fail as a whole
    updates: set<string>,       // the anonymising update of these users fails
    logs: set<string>)          // the audit entry for these users fails

  /**
   * applyRetentionPolicy: build the filter and dispatch on the entity. A
   * filter naming a column the table lacks is refused by the database.
   */
  function ApplyRetentionPolicy(st: Store, p: RetentionPolicy, now: Time, iso: string, fails: Failures,
                                logId: string -> string): (r: Result<(Store, RetentionResult)>)
    ensures r.Ok? <==> WellFormed(p)
    ensures r.Ok? ==> r.value.1 == RetentionResult(p.entity, r.value.1.deletedCount, p.retentionDays, Cutoff(now, p.retentionDays))
    ensures r.Ok? && p.entity == MessagesTable ==>
      && r.value.0 == st.(messages := r.value.0.messages)
      && (forall m :: m in r.value.0.messages <==> m in st.messages && !(m.createdAt < Cutoff(now, p.retentionDays)))
      && r.value.0.messages == Filter(Not(MessageDue(WhereFor(p, now))), st.messages)
      && r.value.1.deletedCount == |Filter(MessageDue(WhereFor(p, now)), st.messages)|
    ensures r.Ok? && p.entity == ConversationsTable ==>
      && r.value.0 == DeleteConversations(st, WhereFor(p, now)).0
      && r.value.1.deletedCount == DeleteConversations(st, WhereFor(p, now)).1
    ensures r.Ok? && p.entity == AuditLogsTable ==>
      && r.value.0 == st.(auditLogs := r.value.0.auditLogs)
      && (forall l :: l in r.value.0.auditLogs <==> l in st.auditLogs && !AuditLogDue(WhereFor(p, now))(l))
      && r.value.0.auditLogs == Filter(Not(AuditLogDue(WhereFor(p, now))), st.auditLogs)
      && (forall l :: l in st.auditLogs && IsLgpdAction(l.action) && p.conditions.Some? ==> l in r.value.0.auditLogs)
      && r.value.1.deletedCount == |Filter(AuditLogDue(WhereFor(p, now)), st.auditLogs)|
    ensures r.Ok? && p.entity == EvaluationsTable ==>
      && r.value.0 == st.(evaluations := r.value.0.evaluations)
      && (forall e :: e in r.value.0.evaluations <==> e in st.evaluations && !(e.createdAt < Cutoff(now, p.retentionDays)))
      && r.value.0.evaluations == Filter(Not(EvaluationDue(WhereFor(p, now))), st.evaluations)
      && r.value.1.deletedCount == |Filter(EvaluationDue(WhereFor(p, now)), st.evaluations)|
    ensures r.Ok? && p.entity == TicketsTable ==>
      && r.value.0 == st.(tickets := r.value.0.tickets)
      && (forall t :: t in r.value.0.tickets <==> t in st.tickets && !TicketDue(WhereFor(p, now))(t))
      && r.value.0.tickets == Filter(Not(TicketDue(WhereFor(p, now))), st.tickets)
      && (forall t :: t in st.tickets && !t.closed && p.conditions.Some? ==> t in r.value.0.tickets)
      && r.value.1.deletedCount == |Filter(TicketDue(WhereFor(p, now)), st.tickets)|
    ensures r.Ok? && p.entity == UsersTable ==>
      r.value.1.deletedCount == |Filter(Anonymizes(fails.updates, fails.logs), Filter(UserDue(WhereFor(p, now)), st.users))|
    ensures r.Ok? && p.entity == UsersTable ==>
      && r.value.0 == st.(users := r.value.0.users, auditLogs := r.value.0.auditLogs)
      && |r.value.0.users| == |st.users|
      && forall i :: 0 <= i < |st.users| ==>
           r.value.0.users[i] == if Updated(Filter(UserDue(WhereFor(p, now)), st.users), fails.updates, st.users[i].id)
                                 then Anonymized(st.users[i], now) else st.users[i]
    ensures r.Ok? && p.entity == UsersTable ==>
      forall i :: 0 <= i < |st.users| && UserDue(WhereFor(p, now))(st.users[i]) && st.users[i].id !in fails.updates ==>
        r.value.0.users[i] == Anonymized(st.users[i], now)
    ensures r.Ok? && p.entity != ConversationsTable ==>
      r.value.0.conversations == st.conversations && r.value.0.companies == st.companies
  {
    if !WellFormed(p) then Err(StoreFailure("Unknown argument in filter for " + EntityName(p.entity)))
    else
      var w := WhereFor(p, now);
      var outcome: (Store, nat) :=
        match p.entity
        case MessagesTable =>
          var d := Purge(MessageDue(w), st.messages); (st.(messages := d.0), d.1)
        case ConversationsTable =>
          DeleteConversations(st, w)
        case AuditLogsTable =>
          var d := Purge(AuditLogDue(w), st.auditLogs); (st.(auditLogs := d.0), d.1)
        case EvaluationsTable =>
          var d := Purge(EvaluationDue(w), st.evaluations); (st.(evaluations := d.0), d.1)
        case TicketsTable =>
          var d := Purge(TicketDue(w), st.tickets); (st.(tickets := d.0), d.1)
        case UsersTable =>
          AnonymizeUsers(st, Filter(UserDue(w), st.users), now, iso, fails.updates, fails.logs, logId);
      Ok((outcome.0, RetentionResult(p.entity, outcome.1, p.retentionDays, w.before)))
  }

  /** The audit-log policy deletes exactly what the audit service's own cleanup deletes for the same day count. */
  lemma AuditPolicyMatchesCleanup(st: Store, p: RetentionPolicy, now: Time, iso: string, fails: Failures,
                                  logId: string -> string)
    requires p.entity == AuditLogsTable && p.field.None? && p.conditions == Some(WithoutLgpdActions)
    ensures var r := ApplyRetentionPolicy(st, p, now, iso, fails, logId);
      r.Ok? && r.value.0 == Audit.CleanupOldLogs(st, now, Some(p.retentionDays))
  {
    var w := WhereFor(p, now);
    var survives := Audit.Survives(Audit.AuditCutoff(now, Some(p.retentionDays)));
    forall i | 0 <= i < |st.auditLogs| ensures Not(AuditLogDue(w))(st.auditLogs[i]) == survives(st.auditLogs[i]) {
    }
    FilterAgree(Not(AuditLogDue(w)), survives, st.auditLogs);
  }

  /** A policy that runs: its filter fits its table and its queries do not fail. */
  function Runs(fails: Failures): RetentionPolicy -> bool {
    (p: RetentionPolicy) => WellFormed(p) && p.entity !in fails.policies
  }

  /**
   * executeRetentionPolicies: apply each policy in turn. A failing policy
   * is caught, leaves no result and changes nothing; the policies after it
   * still run, so the results are those of the running policies, in order.
   */
  function ExecuteRetentionPolicies(st: Store, ps: seq<RetentionPolicy>, now: Time, iso: string, fails: Failures,
                                    logId: string -> string): (r: (Store, seq<RetentionResult>))
    decreases |ps|
    ensures |r.1| <= |ps|
    ensures (forall i :: 0 <= i < |ps| ==> WellFormed(ps[i]) && ps[i].entity !in fails.policies) ==>
      |r.1| == |ps| && forall i :: 0 <= i < |ps| ==> r.1[i].entity == ps[i].entity
    ensures forall i :: 0 <= i < |r.1| ==> r.1[i].entity !in fails.policies
  {
    if ps == [] then (st, [])
    else
      var p := ps[0];
      var applied := if p.entity in fails.policies then Err(StoreFailure("policy failed"))
                     else ApplyRetentionPolicy(st, p, now, iso, fails, logId);
      assert applied.Ok? ==> applied.value.1.entity == p.entity && p.entity !in fails.policies;
      assert applied.Err? ==> p.entity in fails.policies || !WellFormed(p);
      var next := if applied.Ok? then applied.value.0 else st;
      var rest := ExecuteRetentionPolicies(next, ps[1..], now, iso, fails, logId);
      if applied.Ok? then (rest.0, [applied.value.1] + rest.1) else rest
  }

  /** What a result reports besides its count: the entity, the period and the cutoff. */
  function Reported(r: RetentionResult): (Entity, int, Time) {
    (r.entity, r.retentionDays, r.cutoff)
  }

  /** What a policy's result reports when it runs at `now`. */
  function Planned(now: Time): RetentionPolicy -> (Entity, int, Time) {
    (p: RetentionPolicy) => (p.entity, p.retentionDays, Cutoff(now, p.retentionDays))
  }

  /**
   * The results are one per running policy, in order, each reporting that
   * policy's entity, period and cutoff.
   */
  lemma {:induction false} ExecuteReportsRunning(st: Store, ps: seq<RetentionPolicy>, now: Time, iso: string,
                                                 fails: Failures, logId: string -> string)
    ensures Map(Reported, ExecuteRetentionPolicies(st, ps, now, iso, fails, logId).1)
         == Map(Planned(now), Filter(Runs(fails), ps))
    decreases |ps|
  {
    if ps != [] {
      var p := ps[0];
      var kept := Filter(Runs(fails), ps);
      assert kept == (if Runs(fails)(p) then [p] else []) + Filter(Runs(fails), ps[1..]);
      if Runs(fails)(p) {
        var applied := ApplyRetentionPolicy(st, p, now, iso, fails, logId).value;
        var rest := ExecuteRetentionPolicies(applied.0, ps[1..], now, iso, fails, logId).1;
        ExecuteReportsRunning(applied.0, ps[1..], now, iso, fails, logId);
        assert ExecuteRetentionPolicies(st, ps, now, iso, fails, logId).1 == [applied.1] + rest;
        assert Map(Reported, [applied.1] + rest) == [Reported(applied.1)] + Map(Reported, rest);
        assert Map(Planned(now), [p] + Filter(Runs(fails), ps[1..]))
            == [Planned(now)(p)] + Map(Planned(now), Filter(Runs(fails), ps[1..]));
      } else {
        ExecuteReportsRunning(st, ps[1..], now, iso, fails, logId);
      }
    }
  }

  /**
   * Failing policies are skipped without effect: running every policy is
   * running only those that go through, against the same store.
   */
  lemma {:induction false} ExecuteSkipsFailing(st: Store, ps: seq<RetentionPolicy>, now: Time, iso: string,
                                               fails: Failures, logId: string -> string)
    ensures ExecuteRetentionPolicies(st, ps, now, iso, fails, logId)
         == ExecuteRetentionPolicies(st, Filter(Runs(fails), ps), now, iso, fails, logId)
    decreases |ps|
  {
    if ps != [] {
      var p := ps[0];
      var kept := Filter(Runs(fails), ps);
      assert kept == (if Runs(fails)(p) then [p] else []) + Filter(Runs(fails), ps[1..]);
      if Runs(fails)(p) {
        var applied := ApplyRetentionPolicy(st, p, now, iso, fails, logId).value;
        assert kept[0] == p && kept[1..] == Filter(Runs(fails), ps[1..]);
        ExecuteSkipsFailing(applied.0, ps[1..], now, iso, fails, logId);
        var rest := ExecuteRetentionPolicies(applied.0, ps[1..], now, iso, fails, logId);
        assert ExecuteRetentionPolicies(st, ps, now, iso, fails, logId) == (rest.0, [applied.1] + rest.1);
        assert ExecuteRetentionPolicies(st, kept, now, iso, fails, logId) == (rest.0, [applied.1] + rest.1);
      } else {
        assert kept == Filter(Runs(fails), ps[1..]);
        ExecuteSkipsFailing(st, ps[1..], now, iso, fails, logId);
        assert ExecuteRetentionPolicies(st, ps, now, iso, fails, logId)
            == ExecuteRetentionPolicies(st, ps[1..], now, iso, fails, logId);
      }
    }
  }

  /** Executing a single running policy is applying it and reporting its one result. */
  lemma ExecuteOne(st: Store, p: RetentionPolicy, now: Time, iso: string, fails: Failures, logId: string -> string)
    requires Runs(fails)(p)
    ensures ApplyRetentionPolicy(st, p, now, iso, fails, logId).Ok?
    ensures var applied := ApplyRetentionPolicy(st, p, now, iso, fails, logId).value;
      ExecuteRetentionPolicies(st, [p], now, iso, fails, logId) == (applied.0, [applied.1])
  {
    var r := ApplyRetentionPolicy(st, p, now, iso, fails, logId);
    assert r.Ok?;
    var ps := [p];
    assert ps[0] == p && ps[1..] == [];
    assert ExecuteRetentionPolicies(r.value.0, ps[1..], now, iso, fails, logId) == (r.value.0, []);
    assert ExecuteRetentionPolicies(st, ps, now, iso, fails, logId)
        == (ExecuteRetentionPolicies(r.value.0, ps[1..], now, iso, fails, logId).0, [r.value.1] + []);
    assert [r.value.1] + [] == [r.value.1];
  }

  /** manualCleanup: one named policy, or all of them when no name is given. */
  function ManualCleanup(st: Store, ps: seq<RetentionPolicy>, entityType: Option<string>, now: Time, iso: string,
                         fails: Failures, logId: string -> string): (r: Result<(Store, seq<RetentionResult>)>)
    ensures Given(entityType) && (ParseEntity(entityType.value).None? || PolicyFor(ps, ParseEntity(entityType.value).value).None?)
      ==> r == Err(Thrown("No retention policy found for entity: " + entityType.value))
    ensures Given(entityType) && r.Ok? ==>
      |r.value.1| == 1 && EntityName(r.value.1[0].entity) == entityType.value
    ensures Given(entityType) && ParseEntity(entityType.value).Some? && PolicyFor(ps, ParseEntity(entityType.value).value).Some? ==>
      var p := PolicyFor(ps, ParseEntity(entityType.value).value).value;
      && (r.Ok? <==> Runs(fails)(p))
      && (r.Ok? ==> r.value == ExecuteRetentionPolicies(st, [p], now, iso, fails, logId))
      && (r.Ok? ==> r.value == (ApplyRetentionPolicy(st, p, now, iso, fails, logId).value.0,
                                [ApplyRetentionPolicy(st, p, now, iso, fails, logId).value.1]))
    ensures !Given(entityType) ==> r.Ok? && r.value == ExecuteRetentionPolicies(st, ps, now, iso, fails, logId)
  {
    if Given(entityType) then
      var e := ParseEntity(entityType.value);
      if e.None? || PolicyFor(ps, e.value).None? then
        Err(Thrown("No retention policy found for entity: " + entityType.value))
      else
        var p := PolicyFor(ps, e.value).value;
        var applied := if p.entity in fails.policies then Err(StoreFailure("policy failed"))
                       else ApplyRetentionPolicy(st, p, now, iso, fails, logId);
        if applied.Err? then Err(applied.error)
        else
          ExecuteOne(st, p, now, iso, fails, logId);
          Ok((applied.value.0, [applied.value.1]))
    else
      Ok(ExecuteRetentionPolicies(st, ps, now, iso, fails, logId))
  }

  // ---------------------------------------------------------------------
  // Compliance summary.
  // ---------------------------------------------------------------------

  const ActiveConversationsAdvice := "Usuário tem conversas ativas. Considere anonimização se inativo."
  const ManyMessagesAdvice := "Usuário tem muitas mensagens. Considere aplicar política de retenção."
  const ManyMessages := 100

  datatype UserData =
    | Present(isDeleted: bool, deletedAt: Option<Time>, conversations: nat, messages: nat)
    | Absent

  datatype Compliance = Compliance(userId: string, user: UserData, auditLogs: nat, recommendations: seq<string>)

  /** The user's conversations (as the client) and the messages they sent. */
  function ConversationsOfUser(st: Store, userId: string): seq<Conversation> {
    Filter((c: Conversation) => c.clientUserId == Some(userId), st.conversations)
  }

  function MessagesOfUser(st: Store, userId: string): seq<Message> {
    Filter((m: Message) => m.senderId == Some(userId), st.messages)
  }

  lemma AdviceDistinct()
    ensures ActiveConversationsAdvice != ManyMessagesAdvice
  {
    assert |ActiveConversationsAdvice| == 64 && |ManyMessagesAdvice| == 69;
  }

  /** The audit entries a user performed. */
  function ActedBy(userId: string): AuditLog -> bool {
    (l: AuditLog) => l.actorId == userId
  }

  /** Counting a user's entries by filtering agrees with counting their id among the actors. */
  lemma {:induction false} ActedByCount(logs: seq<AuditLog>, userId: string)
    ensures |Filter(ActedBy(userId), logs)| == Occurrences(Map(Audit.ActorOf, logs), userId)
  {
    if logs != [] {
      ActedByCount(logs[1..], userId);
      assert Map(Audit.ActorOf, logs)[1..] == Map(Audit.ActorOf, logs[1..]);
    }
  }

  /** checkLGPDCompliance: what is stored about a user, and the two recommendations. */
  function CheckLgpdCompliance(st: Store, userId: string): (r: Compliance)
    ensures r.user.Absent? <==> FindUser(st, userId).None?
    ensures r.user.Present? ==>
      && r.user.isDeleted == FindUser(st, userId).value.isDeleted
      && r.user.deletedAt == FindUser(st, userId).value.deletedAt
      && r.user.conversations == |ConversationsOfUser(st, userId)|
      && r.user.messages == |MessagesOfUser(st, userId)|
    ensures ActiveConversationsAdvice in r.recommendations <==>
      FindUser(st, userId).Some? && !FindUser(st, userId).value.isDeleted && |ConversationsOfUser(st, userId)| > 0
    ensures ManyMessagesAdvice in r.recommendations <==>
      FindUser(st, userId).Some? && |MessagesOfUser(st, userId)| > ManyMessages
    ensures FindUser(st, userId).None? ==> r.recommendations == []
    ensures r.auditLogs == Occurrences(Map(Audit.ActorOf, st.auditLogs), userId)
  {
    AdviceDistinct();
    ActedByCount(st.auditLogs, userId);
    var logs := |Filter(ActedBy(userId), st.auditLogs)|;
    var u := FindUser(st, userId);
    if u.None? then Compliance(userId, Absent, logs, [])
    else
      var conversations := |ConversationsOfUser(st, userId)|;
      var messages := |MessagesOfUser(st, userId)|;
      var first := if !u.value.isDeleted && conversations > 0 then [ActiveConversationsAdvice] else [];
      var second := if messages > ManyMessages then [ManyMessagesAdvice] else [];
      Compliance(userId, Present(u.value.isDeleted, u.value.deletedAt, conversations, messages), logs, first + second)
  }
}
