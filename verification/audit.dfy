/**
 * The audit trail: creating entries, the helpers that log particular events,
 * the filtered listing, the per-company report and the periodic cleanup that
 * never removes the entries recording a data subject's rights (LGPD).
 */
module Audit {
  import opened Base
  import opened Records
  import opened Sorting
  import opened Tally

  // ---------------------------------------------------------------------
  // Creating entries.
  // ---------------------------------------------------------------------

  /** What a caller supplies for one entry. */
  datatype LogRequest = LogRequest(
    actorId: string,
    action: AuditAction,
    payload: map<string, string>,
    targetId: Option<string>,
    targetType: Option<string>,
    ipAddress: Option<string>,
    userAgent: Option<string>,
    companyId: Option<string>)

  /** The request an entry was made from: the entry without its id and time. */
  function RequestOf(l: AuditLog): LogRequest {
    LogRequest(l.actorId, l.action, l.payload, l.targetId, l.targetType, l.ipAddress, l.userAgent, l.companyId)
  }

  /**
   * One insert. The database supplies `id` and `now`; an insert that fails
   * (`insertError`) is passed on to the caller unchanged.
   */
  function CreateLog(st: Store, req: LogRequest, id: string, now: Time, insertError: Option<string>)
    : (r: Result<(Store, AuditLog)>)
    ensures r.Err? <==> insertError.Some?
    ensures r.Err? ==> r.error == StoreFailure(insertError.value)
    ensures r.Ok? ==> RequestOf(r.value.1) == req && r.value.1.id == id && r.value.1.createdAt == now
    ensures r.Ok? ==> r.value.0 == st.(auditLogs := st.auditLogs + [r.value.1])
  {
    if insertError.Some? then Err(StoreFailure(insertError.value))
    else
      var l := AuditLog(id, req.actorId, req.action, req.payload, req.targetId, req.targetType,
                        req.ipAddress, req.userAgent, req.companyId, now);
      Ok((st.(auditLogs := st.auditLogs + [l]), l))
  }

  /**
   * The events the service has a dedicated logging helper for. A created
   * user's data is kept as its JSON text; `extra` is the caller's metadata,
   * spread over the payload after it.
   */
  datatype AuditEvent =
    | UserCreated(userId: string, userData: string, extra: map<string, string>)
    | LoggedIn(ipAddress: Option<string>, userAgent: Option<string>)
    | LoggedOut
    | ConversationAssigned(conversationId: string, clientId: Option<string>)
    | ConversationTransferred(fromAgentId: string, toAgentId: string, conversationId: string)
    | PdfExported(conversationId: string)
    | XmlExported(conversationId: string)
    | DataExported(targetUserId: string)
    | DataDeleted(targetUserId: string, reason: Option<string>)

  const DefaultDeleteReason := "USER_REQUEST"

  /** The action each event is recorded under. */
  function EventAction(e: AuditEvent): AuditAction {
    match e
    case UserCreated(_, _, _) => UserCreate
    case LoggedIn(_, _) => UserLogin
    case LoggedOut => UserLogout
    case ConversationAssigned(_, _) => ConversationAssign
    case ConversationTransferred(_, _, _) => ConversationTransfer
    case PdfExported(_) => ExportPdf
    case XmlExported(_) => ExportXml
    case DataExported(_) => DataExport
    case DataDeleted(_, _) => DataDelete
  }

  /** Distinct kinds of event are recorded under distinct actions. */
  lemma EventActionsDistinct(a: AuditEvent, b: AuditEvent)
    requires EventAction(a) == EventAction(b)
    ensures a.UserCreated? == b.UserCreated?
    ensures a.LoggedIn? == b.LoggedIn? && a.LoggedOut? == b.LoggedOut?
    ensures a.ConversationAssigned? == b.ConversationAssigned?
    ensures a.ConversationTransferred? == b.ConversationTransferred?
    ensures a.PdfExported? == b.PdfExported? && a.XmlExported? == b.XmlExported?
    ensures a.DataExported? == b.DataExported? && a.DataDeleted? == b.DataDeleted?
  {
  }

  /**
   * The entry a logging helper asks for, by `actor`. `iso` is the current time
   * as ISO text, which the helpers store in the payload.
   */
  function EventRequest(actor: string, e: AuditEvent, iso: string): (r: LogRequest)
    ensures r.actorId == actor && r.companyId.None?
    ensures IsLgpdAction(r.action) <==> e.DataExported? || e.DataDeleted?
    ensures e.DataDeleted? ==> r.targetId == Some(e.targetUserId) && r.targetType == Some("USER")
    ensures e.DataDeleted? ==> "reason" in r.payload && r.payload["reason"] == e.reason.GetOr(DefaultDeleteReason)
    ensures e.LoggedIn? ==> r.ipAddress == e.ipAddress && r.userAgent == e.userAgent
    ensures e.UserCreated? ==> r.targetId == Some(e.userId) && r.targetType == Some("USER")
    ensures e.UserCreated? ==> "userData" in r.payload && forall k :: k in e.extra ==> k in r.payload && r.payload[k] == e.extra[k]
    ensures e.UserCreated? && "userData" !in e.extra ==> r.payload["userData"] == e.userData
    ensures !e.LoggedIn? ==> r.ipAddress.None? && r.userAgent.None?
  {
    var action := EventAction(e);
    match e
    case UserCreated(user, data, extra) =>
      LogRequest(actor, action, map["userData" := data] + extra, Some(user), Some("USER"), None, None, None)
    case LoggedIn(ip, ua) =>
      LogRequest(actor, action, map["timestamp" := iso], None, None, ip, ua, None)
    case LoggedOut =>
      LogRequest(actor, action, map["timestamp" := iso], None, None, None, None, None)
    case ConversationAssigned(cid, client) =>
      var payload := if client.Some? then map["clientId" := client.value, "assignedAt" := iso]
                     else map["assignedAt" := iso];
      LogRequest(actor, action, payload, Some(cid), Some("CONVERSATION"), None, None, None)
    case ConversationTransferred(from, to, cid) =>
      LogRequest(actor, action, map["fromAgentId" := from, "toAgentId" := to, "transferredAt" := iso],
                 Some(cid), Some("CONVERSATION"), None, None, None)
    case PdfExported(cid) =>
      LogRequest(actor, action, map["format" := "PDF", "exportedAt" := iso], Some(cid), Some("CONVERSATION"), None, None, None)
    case XmlExported(cid) =>
      LogRequest(actor, action, map["format" := "XML", "exportedAt" := iso], Some(cid), Some("CONVERSATION"), None, None, None)
    case DataExported(target) =>
      LogRequest(actor, action, map["reason" := "LGPD_REQUEST", "exportedAt" := iso], Some(target), Some("USER"), None, None, None)
    case DataDeleted(target, reason) =>
      LogRequest(actor, action, map["reason" := reason.GetOr(DefaultDeleteReason), "deletedAt" := iso],
                 Some(target), Some("USER"), None, None, None)
  }

  /** A logging helper: build the event's request and insert it. */
  function LogEvent(st: Store, actor: string, e: AuditEvent, iso: string, id: string, now: Time, insertError: Option<string>)
    : (r: Result<Store>)
    ensures r.Err? <==> insertError.Some?
    ensures r.Ok? ==> |r.value.auditLogs| == |st.auditLogs| + 1 && r.value.auditLogs[..|st.auditLogs|] == st.auditLogs
    ensures r.Ok? ==> var l := r.value.auditLogs[|st.auditLogs|];
      l.actorId == actor && l.action == EventAction(e) && l.createdAt == now
    ensures r.Ok? ==> r.value == st.(auditLogs := r.value.auditLogs)
  {
    var c := CreateLog(st, EventRequest(actor, e, iso), id, now, insertError);
    if c.Err? then Err(c.error) else Ok(c.value.0)
  }

  // ---------------------------------------------------------------------
  // Listing with filters.
  // ---------------------------------------------------------------------

  /** The listing's criteria; an absent (or empty) criterion does not filter. */
  datatype LogFilters = LogFilters(
    actorId: Option<string>,
    action: Option<AuditAction>,
    targetId: Option<string>,
    companyId: Option<string>,
    startDate: Option<Time>,
    endDate: Option<Time>,
    limit: Option<nat>,
    offset: Option<nat>)

  const DefaultLogLimit: nat := 100

  /** Reference meaning of the criteria: every criterion that is given holds. */
  predicate Selected(f: LogFilters, l: AuditLog) {
    && (Given(f.actorId) ==> l.actorId == f.actorId.value)
    && (f.action.Some? ==> l.action == f.action.value)
    && (Given(f.targetId) ==> l.targetId == f.targetId)
    && (Given(f.companyId) ==> l.companyId == f.companyId)
    && (f.startDate.Some? ==> f.startDate.value <= l.createdAt)
    && (f.endDate.Some? ==> l.createdAt <= f.endDate.value)
  }

  /** One condition of the query's `where` object. */
  datatype Clause =
    | ActorIs(actor: string)
    | ActionIs(action: AuditAction)
    | TargetIs(target: string)
    | CompanyIs(company: string)
    | CreatedFrom(from: Time)
    | CreatedUntil(until: Time)

  predicate Satisfies(l: AuditLog, c: Clause) {
    match c
    case ActorIs(a) => l.actorId == a
    case ActionIs(a) => l.action == a
    case TargetIs(t) => l.targetId == Some(t)
    case CompanyIs(co) => l.companyId == Some(co)
    case CreatedFrom(t) => l.createdAt >= t
    case CreatedUntil(t) => l.createdAt <= t
  }

  predicate SatisfiesAll(l: AuditLog, w: seq<Clause>) {
    forall i :: 0 <= i < |w| ==> Satisfies(l, w[i])
  }

  function When<T>(on: bool, x: T): seq<T> {
    if on then [x] else []
  }

  /** The `where` object, one clause per criterion that is given. */
  function BuildWhere(f: LogFilters): (w: seq<Clause>)
    ensures w == [] <==>
      !Given(f.actorId) && f.action.None? && !Given(f.targetId) && !Given(f.companyId)
      && f.startDate.None? && f.endDate.None?
  {
    When(Given(f.actorId), ActorIs(f.actorId.GetOr("")))
    + When(f.action.Some?, ActionIs(f.action.GetOr(UserLogin)))
    + When(Given(f.targetId), TargetIs(f.targetId.GetOr("")))
    + When(Given(f.companyId), CompanyIs(f.companyId.GetOr("")))
    + When(f.startDate.Some?, CreatedFrom(f.startDate.GetOr(0)))
    + When(f.endDate.Some?, CreatedUntil(f.endDate.GetOr(0)))
  }

  lemma SatisfiesAllAppend(l: AuditLog, a: seq<Clause>, b: seq<Clause>)
    ensures SatisfiesAll(l, a + b) <==> SatisfiesAll(l, a) && SatisfiesAll(l, b)
  {
    if SatisfiesAll(l, a) && SatisfiesAll(l, b) {
      forall i | 0 <= i < |a + b| ensures Satisfies(l, (a + b)[i]) {
        if i >= |a| {
          assert (a + b)[i] == b[i - |a|];
        }
      }
    }
    if SatisfiesAll(l, a + b) {
      forall i | 0 <= i < |a| ensures Satisfies(l, a[i]) {
        assert (a + b)[i] == a[i];
      }
      forall i | 0 <= i < |b| ensures Satisfies(l, b[i]) {
        assert (a + b)[|a| + i] == b[i];
      }
    }
  }

  lemma SatisfiesWhen(l: AuditLog, on: bool, c: Clause)
    ensures SatisfiesAll(l, When(on, c)) <==> (on ==> Satisfies(l, c))
  {
    if on {
      assert When(on, c)[0] == c;
    }
  }

  /** The built `where` object selects exactly the logs the criteria describe. */
  lemma WhereMeansSelected(f: LogFilters, l: AuditLog)
    ensures SatisfiesAll(l, BuildWhere(f)) <==> Selected(f, l)
  {
    var w1 := When(Given(f.actorId), ActorIs(f.actorId.GetOr("")));
    var w2 := When(f.action.Some?, ActionIs(f.action.GetOr(UserLogin)));
    var w3 := When(Given(f.targetId), TargetIs(f.targetId.GetOr("")));
    var w4 := When(Given(f.companyId), CompanyIs(f.companyId.GetOr("")));
    var w5 := When(f.startDate.Some?, CreatedFrom(f.startDate.GetOr(0)));
    var w6 := When(f.endDate.Some?, CreatedUntil(f.endDate.GetOr(0)));
    assert BuildWhere(f) == w1 + w2 + w3 + w4 + w5 + w6;
    SatisfiesAllAppend(l, w1, w2);
    SatisfiesAllAppend(l, w1 + w2, w3);
    SatisfiesAllAppend(l, w1 + w2 + w3, w4);
    SatisfiesAllAppend(l, w1 + w2 + w3 + w4, w5);
    SatisfiesAllAppend(l, w1 + w2 + w3 + w4 + w5, w6);
    SatisfiesWhen(l, Given(f.actorId), ActorIs(f.actorId.GetOr("")));
    SatisfiesWhen(l, f.action.Some?, ActionIs(f.action.GetOr(UserLogin)));
    SatisfiesWhen(l, Given(f.targetId), TargetIs(f.targetId.GetOr("")));
    SatisfiesWhen(l, Given(f.companyId), CompanyIs(f.companyId.GetOr("")));
    SatisfiesWhen(l, f.startDate.Some?, CreatedFrom(f.startDate.GetOr(0)));
    SatisfiesWhen(l, f.endDate.Some?, CreatedUntil(f.endDate.GetOr(0)));
  }

  function Where(f: LogFilters): AuditLog -> bool {
    (l: AuditLog) => SatisfiesAll(l, BuildWhere(f))
  }

  /** Descending creation time, as a key for the ascending sort. */
  function NewestFirst(l: AuditLog): int {
    -l.createdAt
  }

  /** `take`: an absent or zero limit means the default of 100. */
  function LimitOf(f: LogFilters): nat {
    if f.limit.None? || f.limit.value == 0 then DefaultLogLimit else f.limit.value
  }

  function OffsetOf(f: LogFilters): nat {
    f.offset.GetOr(0)
  }

  /** Every log the criteria select, newest first, before paging. */
  function AllSelected(st: Store, f: LogFilters): (r: seq<AuditLog>)
    ensures forall l :: l in r <==> l in st.auditLogs && Selected(f, l)
    ensures forall i, j :: 0 <= i < j < |r| ==> r[i].createdAt >= r[j].createdAt
    ensures |r| == |Filter(Where(f), st.auditLogs)|
  {
    var kept := Filter(Where(f), st.auditLogs);
    var r := SortBy(kept, NewestFirst);
    forall l ensures l in r <==> l in st.auditLogs && Selected(f, l) {
      SortByMembers(kept, NewestFirst, l);
      WhereMeansSelected(f, l);
      if l in st.auditLogs && Selected(f, l) {
        var i :| 0 <= i < |st.auditLogs| && st.auditLogs[i] == l;
      }
    }
    assert forall i, j :: 0 <= i < j < |r| ==> NewestFirst(r[i]) <= NewestFirst(r[j]);
    r
  }

  /** findLogs: the selected logs, newest first, one page of them. */
  function FindLogs(st: Store, f: LogFilters): (r: seq<AuditLog>)
    ensures |r| <= LimitOf(f)
    ensures forall l :: l in r ==> l in st.auditLogs && Selected(f, l)
    ensures forall i, j :: 0 <= i < j < |r| ==> r[i].createdAt >= r[j].createdAt
    ensures OffsetOf(f) == 0 && |AllSelected(st, f)| <= LimitOf(f) ==>
      forall l :: l in st.auditLogs && Selected(f, l) ==> l in r
    ensures |r| == WindowSize(|AllSelected(st, f)|, OffsetOf(f), LimitOf(f))
    ensures forall i :: 0 <= i < |r| ==> r[i] == AllSelected(st, f)[OffsetOf(f) + i]
  {
    var all := AllSelected(st, f);
    assert SortedBy(all, NewestFirst);
    WindowOfSorted(all, NewestFirst, OffsetOf(f), LimitOf(f));
    Take(Drop(all, OffsetOf(f)), LimitOf(f))
  }

  /** countLogsByAction: how many logs have the action, within the company when one is given. */
  function CountLogsByAction(st: Store, action: AuditAction, companyId: Option<string>): (n: nat)
    ensures n <= |st.auditLogs|
    ensures n == |AllSelected(st, LogFilters(None, Some(action), None, companyId, None, None, None, None))|
  {
    var f := LogFilters(None, Some(action), None, companyId, None, None, None, None);
    var byAction := (l: AuditLog) => l.action == action && (Given(companyId) ==> l.companyId == companyId);
    forall i | 0 <= i < |st.auditLogs| ensures byAction(st.auditLogs[i]) == Where(f)(st.auditLogs[i]) {
      WhereMeansSelected(f, st.auditLogs[i]);
    }
    FilterAgree(byAction, Where(f), st.auditLogs);
    |Filter(byAction, st.auditLogs)|
  }

  // ---------------------------------------------------------------------
  // The report.
  // ---------------------------------------------------------------------

  datatype ActorCount = ActorCount(actorId: string, count: nat, name: Option<string>)

  datatype ReportSummary = ReportSummary(
    totalLogs: nat,
    start: Time,
    end: Time,
    actionBreakdown: Counts<AuditAction>,
    topActors: seq<ActorCount>)

  datatype Report = Report(summary: ReportSummary, logs: seq<AuditLog>)

  const TopActorCount: nat := 10
  const ReportLogCap: nat := 1000

  function ActionOf(l: AuditLog): AuditAction { l.action }
  function ActorOf(l: AuditLog): string { l.actorId }

  /** The actor's name through the log's actor relation, absent for an unknown actor. */
  function ActorName(st: Store, actorId: string): Option<string> {
    var u := FindUser(st, actorId);
    if u.Some? then Some(u.value.name) else None
  }

  function ByCountDesc(e: (string, nat)): int { 0 - e.1 as int }
  function EntryKey(e: (string, nat)): string { e.0 }

  function Named(st: Store): ((string, nat)) -> ActorCount {
    (e: (string, nat)) => ActorCount(e.0, e.1, ActorName(st, e.0))
  }

  /** Actor tallies in order of first appearance, ordered by count descending (stably). */
  function RankedActors(logs: seq<AuditLog>): (r: seq<(string, nat)>)
    ensures forall i, j :: 0 <= i < j < |r| ==> r[i].1 >= r[j].1
    ensures KeysDistinct(r, EntryKey)
    ensures forall i :: 0 <= i < |r| ==> r[i].1 == Occurrences(Map(ActorOf, logs), r[i].0)
    ensures forall k :: k in Map(ActorOf, logs) ==> exists i :: 0 <= i < |r| && r[i].0 == k
  {
    var ids := Map(ActorOf, logs);
    var t := TallyOf(ids);
    var r := SortBy(t, ByCountDesc);
    assert KeysDistinct(t, EntryKey);
    SortByKeysDistinct(t, ByCountDesc, EntryKey);
    assert forall i, j :: 0 <= i < j < |r| ==> ByCountDesc(r[i]) <= ByCountDesc(r[j]);
    forall i | 0 <= i < |r| ensures r[i].1 == Occurrences(ids, r[i].0) {
      ReorderedTallyEntry(ids, r, i);
    }
    forall k | k in ids ensures exists i :: 0 <= i < |r| && r[i].0 == k {
      ReorderedTallyListsKey(ids, r, k);
    }
    r
  }

  predicate Listed(top: seq<ActorCount>, actorId: string) {
    exists i :: 0 <= i < |top| && top[i].actorId == actorId
  }

  /** The ten most active actors with their log counts and names. */
  function TopActors(st: Store, logs: seq<AuditLog>): (top: seq<ActorCount>)
    ensures |top| <= TopActorCount
    ensures forall i, j :: 0 <= i < j < |top| ==> top[i].count >= top[j].count
    ensures forall i, j :: 0 <= i < j < |top| ==> top[i].actorId != top[j].actorId
    ensures forall i :: 0 <= i < |top| ==>
      top[i].count == Occurrences(Map(ActorOf, logs), top[i].actorId) && top[i].name == ActorName(st, top[i].actorId)
    ensures forall k :: k in Map(ActorOf, logs) && !Listed(top, k) ==>
      |top| == TopActorCount && forall i :: 0 <= i < |top| ==> top[i].count >= Occurrences(Map(ActorOf, logs), k)
  {
    var ranked := RankedActors(logs);
    var ids := Map(ActorOf, logs);
    var top := Map(Named(st), Take(ranked, TopActorCount));
    assert forall i :: 0 <= i < |top| ==>
      top[i] == ActorCount(ranked[i].0, ranked[i].1, ActorName(st, ranked[i].0));
    forall k | k in ids && !Listed(top, k)
      ensures |top| == TopActorCount && forall i :: 0 <= i < |top| ==> top[i].count >= Occurrences(ids, k)
    {
      var j :| 0 <= j < |ranked| && ranked[j].0 == k;
    }
    top
  }

  /** The report over the logs a query returned. */
  function Summarize(st: Store, logs: seq<AuditLog>, start: Time, end: Time): (r: Report)
    ensures r.summary.totalLogs == |logs| && r.summary.start == start && r.summary.end == end
    ensures Total(r.summary.actionBreakdown) == |logs|
    ensures forall a :: CountOf(r.summary.actionBreakdown, a) == Occurrences(Map(ActionOf, logs), a)
    ensures r.summary.topActors == TopActors(st, logs)
    ensures |r.logs| <= ReportLogCap && IsPrefixOf(r.logs, logs)
    ensures |logs| <= ReportLogCap ==> r.logs == logs
  {
    var breakdown := TallyOf(Map(ActionOf, logs));
    forall a ensures CountOf(breakdown, a) == Occurrences(Map(ActionOf, logs), a) {
      TallyOfCounts(Map(ActionOf, logs), a);
    }
    TallyOfCounts(Map(ActionOf, logs), UserLogin);
    Report(ReportSummary(|logs|, start, end, breakdown, TopActors(st, logs)), Take(logs, ReportLogCap))
  }

  /** The criteria the report queries with: the company and the period, nothing else. */
  function ReportFilters(companyId: string, start: Time, end: Time): LogFilters {
    LogFilters(None, None, None, Some(companyId), Some(start), Some(end), None, None)
  }

  /**
   * generateAuditReport as the service has it: the query goes through the
   * paged listing with its default limit, so the report sees at most 100 logs.
   */
  function GenerateAuditReportAsWritten(st: Store, companyId: string, start: Time, end: Time): (r: Report)
    ensures r.summary.totalLogs <= DefaultLogLimit
  {
    Summarize(st, FindLogs(st, ReportFilters(companyId, start, end)), start, end)
  }

  /** 101 logs of one company at one instant. */
  function BusyStore(): (st: Store)
    ensures |st.auditLogs| == 101
  {
    Store([], [], [], [], [], [],
          seq(101, i => AuditLog("log", "actor", UserLogin, map[], None, None, None, None, Some("acme"), 5)))
  }

  /** A period with 101 logs of the company is reported as having 100. */
  lemma AsWrittenReportUndercounts()
    ensures var st := BusyStore();
      |AllSelected(st, ReportFilters("acme", 0, 10))| == 101
      && GenerateAuditReportAsWritten(st, "acme", 0, 10).summary.totalLogs == 100
  {
    var st := BusyStore();
    var f := ReportFilters("acme", 0, 10);
    forall i | 0 <= i < |st.auditLogs| ensures Where(f)(st.auditLogs[i]) {
      WhereMeansSelected(f, st.auditLogs[i]);
    }
    FilterAll(Where(f), st.auditLogs);
  }

  /** With no offset and no more matches than the page holds, one page is every match. */
  lemma FullPageIsAll(st: Store, f: LogFilters)
    ensures OffsetOf(f) == 0 && |AllSelected(st, f)| <= LimitOf(f) ==> FindLogs(st, f) == AllSelected(st, f)
  {
    var all := AllSelected(st, f);
    var page := FindLogs(st, f);
    if OffsetOf(f) == 0 && |all| <= LimitOf(f) {
      assert |page| == |all|;
      forall i | 0 <= i < |page| ensures page[i] == all[i] {
        assert page[i] == all[OffsetOf(f) + i];
      }
    }
  }

  /**
   * generateAuditReport as intended: the summary counts every log of the
   * company in the period, and only the attached list is capped at 1000.
   */
  function GenerateAuditReport(st: Store, companyId: string, start: Time, end: Time): (r: Report)
    ensures r.summary.totalLogs == |AllSelected(st, ReportFilters(companyId, start, end))|
    ensures forall l :: l in r.logs ==>
      l in st.auditLogs && start <= l.createdAt <= end && (companyId != "" ==> l.companyId == Some(companyId))
    ensures |r.logs| <= ReportLogCap
    ensures Total(r.summary.actionBreakdown) == r.summary.totalLogs
    ensures r == Summarize(st, AllSelected(st, ReportFilters(companyId, start, end)), start, end)
    ensures |AllSelected(st, ReportFilters(companyId, start, end))| <= DefaultLogLimit ==>
      r == GenerateAuditReportAsWritten(st, companyId, start, end)
  {
    var logs := AllSelected(st, ReportFilters(companyId, start, end));
    var r := Summarize(st, logs, start, end);
    FullPageIsAll(st, ReportFilters(companyId, start, end));
    forall l | l in r.logs
      ensures l in st.auditLogs && start <= l.createdAt <= end && (companyId != "" ==> l.companyId == Some(companyId))
    {
      var i :| 0 <= i < |r.logs| && r.logs[i] == l;
      assert l == logs[i];
      assert Selected(ReportFilters(companyId, start, end), l);
    }
    r
  }

  // ---------------------------------------------------------------------
  // Cleanup.
  // ---------------------------------------------------------------------

  const DefaultAuditRetentionDays := 90

  /** Logs created before this instant are old; the day count comes from the environment. */
  function AuditCutoff(now: Time, days: Option<int>): Time {
    now - days.GetOr(DefaultAuditRetentionDays) * DayMs
  }

  function Survives(cutoff: Time): AuditLog -> bool {
    (l: AuditLog) => !(l.createdAt < cutoff && !IsLgpdAction(l.action))
  }

  /** cleanupOldLogs: delete old logs except those recording a data subject's rights. */
  function CleanupOldLogs(st: Store, now: Time, days: Option<int>): (r: Store)
    ensures r == st.(auditLogs := r.auditLogs)
    ensures forall l :: l in r.auditLogs <==>
      l in st.auditLogs && (IsLgpdAction(l.action) || l.createdAt >= AuditCutoff(now, days))
    ensures IsSubsequence(r.auditLogs, st.auditLogs)
  {
    var kept := Filter(Survives(AuditCutoff(now, days)), st.auditLogs);
    FilterIsSubsequence(Survives(AuditCutoff(now, days)), st.auditLogs);
    st.(auditLogs := kept)
  }

  /** A second cleanup at the same instant deletes nothing more. */
  lemma CleanupOldLogsIdempotent(st: Store, now: Time, days: Option<int>)
    ensures CleanupOldLogs(CleanupOldLogs(st, now, days), now, days) == CleanupOldLogs(st, now, days)
  {
    var p := Survives(AuditCutoff(now, days));
    var once := CleanupOldLogs(st, now, days);
    forall i | 0 <= i < |once.auditLogs| ensures p(once.auditLogs[i]) {
      assert once.auditLogs[i] in once.auditLogs;
    }
    FilterAll(p, once.auditLogs);
  }
}
