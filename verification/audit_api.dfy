/**
 * The audit endpoints: the role each route admits, completing an entry
 * from the request, confining a manager to their own company, and the
 * parameter checks in front of each query. Every caller here has passed
 * the token guard.
 */
module AuditApi {
  import opened Base
  import opened Records
  import opened Audit

  /**
   * The authenticated caller, as the token strategy builds the request's
   * user: its id is under `userId`, and there is no `id`.
   */
  datatype Caller = Caller(userId: string, role: string, companyId: Option<string>)

  // ---------------------------------------------------------------------
  // Role guards
  // ---------------------------------------------------------------------

  /** The roles a route's `@Roles` names; no list means any signed-in user. */
  const Writers: seq<string> := ["agent", "manager", "admin"]
  const Readers: seq<string> := ["manager", "admin"]
  const Officers: seq<string> := ["admin"]

  /** The role guard lets a caller through when the route names no roles or names the caller's. */
  predicate Admits(roles: seq<string>, caller: Caller) {
    roles == [] || caller.role in roles
  }

  /** What the role guard answers a caller it turns away. */
  const Refused: Fault := Forbidden("Forbidden resource")

  /** What the HTTP request itself carries: the client address and user agent. */
  datatype Origin = Origin(ip: Option<string>, userAgent: Option<string>)

  predicate IsScopedManager(c: Caller) {
    c.role == "manager" && Given(c.companyId)
  }

  // ---------------------------------------------------------------------
  // POST log
  // ---------------------------------------------------------------------

  /** A create request's body; the fields the endpoint may fill in are optional. */
  datatype LogDraft = LogDraft(
    actorId: Option<string>,
    action: AuditAction,
    payload: map<string, string>,
    targetId: Option<string>,
    targetType: Option<string>,
    ipAddress: Option<string>,
    userAgent: Option<string>,
    companyId: Option<string>)

  /**
   * Fill address, agent, actor and company from the request where the body
   * leaves them out; the actor is the caller's `userId`.
   */
  function FillDraft(d: LogDraft, o: Origin, caller: Option<Caller>): (r: LogDraft)
    ensures r.ipAddress == if Given(d.ipAddress) then d.ipAddress else o.ip
    ensures r.userAgent == if Given(d.userAgent) then d.userAgent else o.userAgent
    ensures r.actorId == if !Given(d.actorId) && caller.Some? then Some(caller.value.userId) else d.actorId
    ensures r.companyId ==
      if !Given(d.companyId) && caller.Some? && Given(caller.value.companyId) then caller.value.companyId else d.companyId
    ensures r.action == d.action && r.payload == d.payload && r.targetId == d.targetId && r.targetType == d.targetType
  {
    var withIp := if Given(d.ipAddress) then d else d.(ipAddress := o.ip);
    var withAgent := if Given(withIp.userAgent) then withIp else withIp.(userAgent := o.userAgent);
    var withActor := if !Given(withAgent.actorId) && caller.Some? then withAgent.(actorId := Some(caller.value.userId)) else withAgent;
    if !Given(withActor.companyId) && caller.Some? && Given(caller.value.companyId) then
      withActor.(companyId := caller.value.companyId)
    else withActor
  }

  /** A body that already names all four fields is passed on as it came. */
  lemma FillDraftKeepsGiven(d: LogDraft, o: Origin, caller: Option<Caller>)
    requires Given(d.ipAddress) && Given(d.userAgent) && Given(d.actorId) && Given(d.companyId)
    ensures FillDraft(d, o, caller) == d
  {
  }

  /** Filling a second time from the same request changes nothing. */
  lemma FillDraftIdempotent(d: LogDraft, o: Origin, caller: Option<Caller>)
    ensures FillDraft(FillDraft(d, o, caller), o, caller) == FillDraft(d, o, caller)
  {
  }

  /**
   * The create endpoint: the role guard, then fill the draft and insert.
   * A draft still without an actor cannot be inserted, since the actor
   * column is required.
   */
  function PostLog(st: Store, d: LogDraft, o: Origin, caller: Caller, id: string, now: Time, insertError: Option<string>)
    : (r: Result<(Store, AuditLog)>)
    ensures !Admits(Writers, caller) ==> r == Err(Refused)
    ensures Admits(Writers, caller) ==> (r.Err? <==> insertError.Some?)
    ensures r.Ok? ==> var l := r.value.1;
      l.ipAddress == FillDraft(d, o, Some(caller)).ipAddress && l.userAgent == FillDraft(d, o, Some(caller)).userAgent
      && l.companyId == FillDraft(d, o, Some(caller)).companyId
      && r.value.0 == st.(auditLogs := st.auditLogs + [l])
    ensures r.Ok? ==> r.value.1.actorId == if Given(d.actorId) then d.actorId.value else caller.userId
  {
    if !Admits(Writers, caller) then Err(Refused)
    else
      var f := FillDraft(d, o, Some(caller));
      if f.actorId.None? then Err(StoreFailure("actorId is required"))
      else
        CreateLog(st, LogRequest(f.actorId.value, f.action, f.payload, f.targetId, f.targetType,
                                 f.ipAddress, f.userAgent, f.companyId), id, now, insertError)
  }

  /** The draft as the endpoint fills it: it reads the caller's `id`, which is never set. */
  function FillDraftAsWritten(d: LogDraft, o: Origin, caller: Option<Caller>): (r: LogDraft)
    ensures r.actorId == if !Given(d.actorId) && caller.Some? then None else d.actorId
    ensures r == FillDraft(d, o, caller).(actorId := r.actorId)
  {
    var filled := FillDraft(d, o, caller);
    if !Given(d.actorId) && caller.Some? then filled.(actorId := None) else filled
  }

  /** The create endpoint as written: the actor comes from `FillDraftAsWritten`. */
  function PostLogAsWritten(st: Store, d: LogDraft, o: Origin, caller: Caller, id: string, now: Time, insertError: Option<string>)
    : (r: Result<(Store, AuditLog)>)
    ensures !Admits(Writers, caller) ==> r == Err(Refused)
    ensures Admits(Writers, caller) && !Given(d.actorId) ==> r.Err?
    ensures Admits(Writers, caller) && Given(d.actorId) ==> r == PostLog(st, d, o, caller, id, now, insertError)
  {
    if !Admits(Writers, caller) then Err(Refused)
    else
      var f := FillDraftAsWritten(d, o, Some(caller));
      if f.actorId.None? then Err(StoreFailure("actorId is required"))
      else
        CreateLog(st, LogRequest(f.actorId.value, f.action, f.payload, f.targetId, f.targetType,
                                 f.ipAddress, f.userAgent, f.companyId), id, now, insertError)
  }

  /**
   * As written, an agent's log without an actor in its body is refused by
   * the store, where the caller was meant to be recorded as its actor.
   */
  lemma AsWrittenPostLogLosesCaller(st: Store, d: LogDraft, o: Origin, id: string, now: Time)
    requires d.actorId.None?
    ensures var agent := Caller("u1", "agent", None);
      && PostLogAsWritten(st, d, o, agent, id, now, None).Err?
      && PostLog(st, d, o, agent, id, now, None).Ok?
      && PostLog(st, d, o, agent, id, now, None).value.1.actorId == "u1"
  {
  }

  // ---------------------------------------------------------------------
  // GET logs, report and action count
  // ---------------------------------------------------------------------

  /** The company filter a caller may use: a manager with a company gets that company. */
  function ScopedCompany(caller: Caller, requested: Option<string>): (r: Option<string>)
    ensures IsScopedManager(caller) ==> r == caller.companyId
    ensures !IsScopedManager(caller) ==> r == requested
  {
    if IsScopedManager(caller) then caller.companyId else requested
  }

  /** The raw query of the listing endpoint. */
  datatype LogQuery = LogQuery(
    actorId: Option<string>,
    action: Option<AuditAction>,
    targetId: Option<string>,
    companyId: Option<string>,
    startDate: Option<string>,
    endDate: Option<string>,
    limit: Option<string>,
    offset: Option<string>)

  /**
   * Date and number parsing are parameters: `date(s)` is absent when the
   * text is not a valid date, and `number(s)` is the natural number the
   * text spells, or absent. `parseInt` also reads a sign, so a limit or
   * offset such as "-5" reaches the query as a negative number; the model
   * has no such value.
   */
  predicate BadDate(text: Option<string>, date: string -> Option<Time>) {
    Given(text) && date(text.value).None?
  }

  function DateOf(text: Option<string>, date: string -> Option<Time>): Option<Time> {
    if Given(text) then date(text.value) else None
  }

  function NumberOf(text: Option<string>, number: string -> Option<nat>, fallback: nat): Option<nat> {
    if Given(text) then number(text.value) else Some(fallback)
  }

  /** The criteria the listing endpoint passes on. */
  function QueryFilters(caller: Caller, q: LogQuery, date: string -> Option<Time>, number: string -> Option<nat>)
    : (f: LogFilters)
    ensures f.companyId == ScopedCompany(caller, q.companyId)
    ensures f.actorId == q.actorId && f.action == q.action && f.targetId == q.targetId
    ensures !Given(q.limit) ==> LimitOf(f) == DefaultLogLimit
    ensures !Given(q.offset) ==> OffsetOf(f) == 0
  {
    LogFilters(q.actorId, q.action, q.targetId, ScopedCompany(caller, q.companyId),
               DateOf(q.startDate, date), DateOf(q.endDate, date),
               NumberOf(q.limit, number, DefaultLogLimit), NumberOf(q.offset, number, 0))
  }

  /** GET logs: the role guard, then reject unparsable dates, start first; otherwise one page of the listing. */
  function GetLogs(st: Store, caller: Caller, q: LogQuery, date: string -> Option<Time>, number: string -> Option<nat>)
    : (r: Result<seq<AuditLog>>)
    ensures !Admits(Readers, caller) ==> r == Err(Refused)
    ensures Admits(Readers, caller) && BadDate(q.startDate, date) ==> r == Err(BadRequest("Invalid startDate format"))
    ensures Admits(Readers, caller) && !BadDate(q.startDate, date) && BadDate(q.endDate, date) ==>
      r == Err(BadRequest("Invalid endDate format"))
    ensures r.Ok? <==> Admits(Readers, caller) && !BadDate(q.startDate, date) && !BadDate(q.endDate, date)
    ensures r.Ok? && IsScopedManager(caller) ==> forall l :: l in r.value ==> l.companyId == caller.companyId
    ensures r.Ok? ==> forall l :: l in r.value ==>
      l in st.auditLogs && Selected(QueryFilters(caller, q, date, number), l)
    ensures r.Ok? && !Given(q.limit) ==> |r.value| <= DefaultLogLimit
    ensures r.Ok? ==> r.value == FindLogs(st, QueryFilters(caller, q, date, number))
  {
    if !Admits(Readers, caller) then Err(Refused)
    else if BadDate(q.startDate, date) then Err(BadRequest("Invalid startDate format"))
    else if BadDate(q.endDate, date) then Err(BadRequest("Invalid endDate format"))
    else Ok(FindLogs(st, QueryFilters(caller, q, date, number)))
  }

  /**
   * The report's ownership check: a manager may only ask about their own
   * company. A manager without a company never passes, since a missing
   * company on the token is null and a missing query parameter undefined.
   */
  predicate ForeignReport(caller: Caller, companyId: Option<string>) {
    caller.role == "manager" && (caller.companyId.None? || caller.companyId != companyId)
  }

  /** GET report: the role guard, the ownership check, then required fields, then date parsing. */
  function GetReport(st: Store, caller: Caller, companyId: Option<string>, startDate: Option<string>,
                     endDate: Option<string>, date: string -> Option<Time>): (r: Result<Report>)
    ensures !Admits(Readers, caller) ==> r == Err(Refused)
    ensures Admits(Readers, caller) && ForeignReport(caller, companyId) ==>
      r == Err(BadRequest("Unauthorized to generate report for this company"))
    ensures (Admits(Readers, caller) && !ForeignReport(caller, companyId)
             && (!Given(companyId) || !Given(startDate) || !Given(endDate))) ==>
      r == Err(BadRequest("companyId, startDate and endDate are required"))
    ensures r.Ok? <==>
      Admits(Readers, caller) && !ForeignReport(caller, companyId)
      && Given(companyId) && Given(startDate) && Given(endDate)
      && date(startDate.value).Some? && date(endDate.value).Some?
    ensures r.Ok? ==> forall l :: l in r.value.logs ==> l.companyId == companyId
    ensures r.Ok? && caller.role == "manager" ==> companyId == caller.companyId
    ensures r.Ok? ==>
      r.value == GenerateAuditReport(st, companyId.value, date(startDate.value).value, date(endDate.value).value)
  {
    if !Admits(Readers, caller) then Err(Refused)
    else if ForeignReport(caller, companyId) then
      Err(BadRequest("Unauthorized to generate report for this company"))
    else if !Given(companyId) || !Given(startDate) || !Given(endDate) then
      Err(BadRequest("companyId, startDate and endDate are required"))
    else if date(startDate.value).None? || date(endDate.value).None? then
      Err(BadRequest("Invalid date format"))
    else
      Ok(GenerateAuditReport(st, companyId.value, date(startDate.value).value, date(endDate.value).value))
  }

  datatype ActionCount = ActionCount(action: AuditAction, companyId: Option<string>, count: nat)

  /** GET action count: the role guard, then scope the company, require the action, count. */
  function GetActionCount(st: Store, caller: Caller, action: Option<AuditAction>, companyId: Option<string>)
    : (r: Result<ActionCount>)
    ensures !Admits(Readers, caller) ==> r == Err(Refused)
    ensures r.Err? <==> !Admits(Readers, caller) || action.None?
    ensures Admits(Readers, caller) && action.None? ==> r == Err(BadRequest("action parameter is required"))
    ensures r.Ok? ==> r.value.action == action.value && r.value.companyId == ScopedCompany(caller, companyId)
    ensures r.Ok? ==>
      r.value.count == |AllSelected(st, LogFilters(None, action, None, r.value.companyId, None, None, None, None))|
  {
    if !Admits(Readers, caller) then Err(Refused)
    else if action.None? then Err(BadRequest("action parameter is required"))
    else
      var scoped := ScopedCompany(caller, companyId);
      Ok(ActionCount(action.value, scoped, CountLogsByAction(st, action.value, scoped)))
  }

  // ---------------------------------------------------------------------
  // POST events
  // ---------------------------------------------------------------------

  /** The bodies of the event endpoints. */
  datatype EventBody =
    | LoginBody
    | LogoutBody
    | ExportPdfBody(conversationId: Option<string>)
    | ExportXmlBody(conversationId: Option<string>)
    | DataExportBody(targetUserId: Option<string>)
    | DataDeleteBody(targetUserId: Option<string>, reason: Option<string>)

  /** The roles each event route admits: sign-in and sign-out name none. */
  function EventRoles(b: EventBody): seq<string> {
    match b
    case LoginBody => []
    case LogoutBody => []
    case ExportPdfBody(_) => Writers
    case ExportXmlBody(_) => Writers
    case DataExportBody(_) => Officers
    case DataDeleteBody(_, _) => Officers
  }

  /** The body's required field is missing or empty. */
  predicate MissingField(b: EventBody) {
    match b
    case LoginBody => false
    case LogoutBody => false
    case ExportPdfBody(c) => !Given(c)
    case ExportXmlBody(c) => !Given(c)
    case DataExportBody(t) => !Given(t)
    case DataDeleteBody(t, _) => !Given(t)
  }

  /** The event a complete body stands for. */
  function BodyEvent(b: EventBody, o: Origin): AuditEvent
    requires !MissingField(b)
  {
    match b
    case LoginBody => LoggedIn(o.ip, o.userAgent)
    case LogoutBody => LoggedOut
    case ExportPdfBody(c) => PdfExported(c.value)
    case ExportXmlBody(c) => XmlExported(c.value)
    case DataExportBody(t) => DataExported(t.value)
    case DataDeleteBody(t, reason) => DataDeleted(t.value, reason)
  }

  /** An event endpoint: the role guard, the required field, then log the event with the caller as actor. */
  function PostEvent(st: Store, caller: Caller, o: Origin, b: EventBody, iso: string, id: string, now: Time,
                     insertError: Option<string>): (r: Result<Store>)
    ensures !Admits(EventRoles(b), caller) ==> r == Err(Refused)
    ensures Admits(EventRoles(b), caller) && MissingField(b) && (b.ExportPdfBody? || b.ExportXmlBody?) ==>
      r == Err(BadRequest("conversationId is required"))
    ensures Admits(EventRoles(b), caller) && MissingField(b) && (b.DataExportBody? || b.DataDeleteBody?) ==>
      r == Err(BadRequest("targetUserId is required"))
    ensures r.Ok? <==> Admits(EventRoles(b), caller) && !MissingField(b) && insertError.None?
    ensures r.Ok? ==>
      && |r.value.auditLogs| == |st.auditLogs| + 1
      && r.value.auditLogs[|st.auditLogs|].actorId == caller.userId
      && r.value.auditLogs[|st.auditLogs|].action == EventAction(BodyEvent(b, o))
    ensures r.Ok? ==> (IsLgpdAction(r.value.auditLogs[|st.auditLogs|].action) <==> b.DataExportBody? || b.DataDeleteBody?)
  {
    if !Admits(EventRoles(b), caller) then Err(Refused)
    else if MissingField(b) then
      if b.ExportPdfBody? || b.ExportXmlBody? then Err(BadRequest("conversationId is required"))
      else Err(BadRequest("targetUserId is required"))
    else
      LogEvent(st, caller.userId, BodyEvent(b, o), iso, id, now, insertError)
  }

  /**
   * An event endpoint as written: it passes the caller's `id`, which is
   * never set, so the entry has no actor and the store refuses it.
   */
  function PostEventAsWritten(st: Store, caller: Caller, o: Origin, b: EventBody): (r: Result<Store>)
    ensures r.Err?
    ensures !Admits(EventRoles(b), caller) ==> r == Err(Refused)
    ensures Admits(EventRoles(b), caller) && !MissingField(b) ==> r == Err(StoreFailure("actorId is required"))
  {
    if !Admits(EventRoles(b), caller) then Err(Refused)
    else if MissingField(b) then
      if b.ExportPdfBody? || b.ExportXmlBody? then Err(BadRequest("conversationId is required"))
      else Err(BadRequest("targetUserId is required"))
    else Err(StoreFailure("actorId is required"))
  }

  /** As written, signing out is never recorded; with the caller's `userId` as actor it is. */
  lemma AsWrittenLogoutNotRecorded(st: Store, caller: Caller, o: Origin, iso: string, id: string, now: Time)
    ensures PostEventAsWritten(st, caller, o, LogoutBody).Err?
    ensures PostEvent(st, caller, o, LogoutBody, iso, id, now, None).Ok?
  {
  }

  /** A data deletion logged without a reason records the default reason. */
  lemma DataDeleteDefaultReason(actor: string, target: string, iso: string)
    ensures var r := EventRequest(actor, DataDeleted(target, None), iso);
      r.action == DataDelete && r.payload["reason"] == "USER_REQUEST"
  {
  }
}
