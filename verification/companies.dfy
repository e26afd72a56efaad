/**
 * The company service and its request bodies: the CNPJ format, field
 * length limits, registration with a unique CNPJ, the paginated listing
 * with user and conversation counts, updates that cannot touch the CNPJ,
 * removal guarded by the company's dependants, and the statistics.
 */
module Companies {
  import opened Base
  import opened Records
  import opened Paging
  import opened Sorting
  import opened Tally
  import Users

  // ---------------------------------------------------------------------
  // CNPJ format: NN.NNN.NNN/NNNN-NN
  // ---------------------------------------------------------------------

  const CnpjLength := 18
  const CnpjDigitCount := 14

  /** The separator a CNPJ carries at a fixed place; every other place holds a digit. */
  function CnpjMark(i: int): Option<char> {
    if i == 2 || i == 6 then Some('.')
    else if i == 10 then Some('/')
    else if i == 15 then Some('-')
    else None
  }

  /** Place by place: the separators where they belong and ASCII digits elsewhere. */
  predicate IsCnpj(s: string) {
    && |s| == CnpjLength
    && forall i :: 0 <= i < |s| ==> if CnpjMark(i).Some? then s[i] == CnpjMark(i).value else IsDigit(s[i])
  }

  predicate AllDigits(d: string) {
    forall i :: 0 <= i < |d| ==> IsDigit(d[i])
  }

  /** Where the `i`-th digit of a CNPJ sits once the separators are in. */
  function DigitPlace(i: int): int {
    if i < 2 then i else if i < 5 then i + 1 else if i < 8 then i + 2 else if i < 12 then i + 3 else i + 4
  }

  /** The pattern read as groups: two digits, '.', three, '.', three, '/', four, '-', two. */
  function FormatCnpj(d: string): (s: string)
    requires |d| == CnpjDigitCount && AllDigits(d)
    ensures IsCnpj(s)
    ensures forall i :: 0 <= i < CnpjDigitCount ==> s[DigitPlace(i)] == d[i]
  {
    var s := d[..2] + "." + d[2..5] + "." + d[5..8] + "/" + d[8..12] + "-" + d[12..];
    assert forall i :: 0 <= i < 2 ==> s[i] == d[i];
    assert forall i :: 3 <= i < 6 ==> s[i] == d[i - 1];
    assert forall i :: 7 <= i < 10 ==> s[i] == d[i - 2];
    assert forall i :: 11 <= i < 15 ==> s[i] == d[i - 3];
    assert forall i :: 16 <= i < 18 ==> s[i] == d[i - 4];
    s
  }

  /** The fourteen digits of a well-formed CNPJ, separators dropped. */
  function CnpjDigits(s: string): (d: string)
    requires IsCnpj(s)
    ensures |d| == CnpjDigitCount && AllDigits(d)
    ensures forall i :: 0 <= i < CnpjDigitCount ==> d[i] == s[DigitPlace(i)]
  {
    var d := s[..2] + s[3..6] + s[7..10] + s[11..15] + s[16..];
    assert forall i :: 0 <= i < 2 ==> d[i] == s[i];
    assert forall i :: 2 <= i < 5 ==> d[i] == s[i + 1];
    assert forall i :: 5 <= i < 8 ==> d[i] == s[i + 2];
    assert forall i :: 8 <= i < 12 ==> d[i] == s[i + 3];
    assert forall i :: 12 <= i < 14 ==> d[i] == s[i + 4];
    d
  }

  /** Formatting fourteen digits and reading them back gives the digits. */
  lemma CnpjDigitsOfFormat(d: string)
    requires |d| == CnpjDigitCount && AllDigits(d)
    ensures CnpjDigits(FormatCnpj(d)) == d
  {
    var s := FormatCnpj(d);
    var e := CnpjDigits(s);
    assert forall i :: 0 <= i < 14 ==> e[i] == d[i];
  }

  /** Every well-formed CNPJ is the formatting of its own digits. */
  lemma FormatOfCnpjDigits(s: string)
    requires IsCnpj(s)
    ensures FormatCnpj(CnpjDigits(s)) == s
  {
    var t := FormatCnpj(CnpjDigits(s));
    forall j | 0 <= j < CnpjLength
      ensures t[j] == s[j]
    {
      if CnpjMark(j).None? {
        var i := if j < 2 then j else if j < 6 then j - 1 else if j < 10 then j - 2 else if j < 15 then j - 3 else j - 4;
        assert DigitPlace(i) == j;
      }
    }
  }

  // ---------------------------------------------------------------------
  // Request bodies
  // ---------------------------------------------------------------------

  const MaxFieldLength := 255

  datatype NewCompany = NewCompany(name: string, cnpj: string, contactEmail: string)

  /** The update body the DTO declares: the CNPJ is left out. */
  datatype CompanyChanges = CompanyChanges(name: Option<string>, contactEmail: Option<string>)

  /** Non-empty and at most 255 characters. */
  predicate BoundedText(s: string) {
    s != "" && |s| <= MaxFieldLength
  }

  /** The fields of a registration body that fail their rules, in declaration order. */
  function CreateViolations(dto: NewCompany): (r: seq<string>)
    ensures "name" in r <==> !BoundedText(dto.name)
    ensures "cnpj" in r <==> !IsCnpj(dto.cnpj)
    ensures "contactEmail" in r <==> !BoundedText(dto.contactEmail)
    ensures r == [] <==> BoundedText(dto.name) && IsCnpj(dto.cnpj) && BoundedText(dto.contactEmail)
    ensures |r| <= 3
  {
    (if BoundedText(dto.name) then [] else ["name"])
    + (if IsCnpj(dto.cnpj) then [] else ["cnpj"])
    + (if BoundedText(dto.contactEmail) then [] else ["contactEmail"])
  }

  /** The fields of an update body that fail their rules; absent fields are not checked. */
  function UpdateViolations(dto: CompanyChanges): (r: seq<string>)
    ensures "name" in r <==> dto.name.Some? && !BoundedText(dto.name.value)
    ensures "contactEmail" in r <==> dto.contactEmail.Some? && !BoundedText(dto.contactEmail.value)
    ensures r == [] <==>
      && (dto.name.Some? ==> BoundedText(dto.name.value))
      && (dto.contactEmail.Some? ==> BoundedText(dto.contactEmail.value))
  {
    (if dto.name.Some? && !BoundedText(dto.name.value) then ["name"] else [])
    + (if dto.contactEmail.Some? && !BoundedText(dto.contactEmail.value) then ["contactEmail"] else [])
  }

  // ---------------------------------------------------------------------
  // create
  // ---------------------------------------------------------------------

  function FindByCnpjIn(st: Store, cnpj: string): Option<Company> {
    Find(st.companies, CompanyCnpj, cnpj)
  }

  /** Registration: a CNPJ already on file is a conflict; otherwise the company is appended. */
  function Create(st: Store, dto: NewCompany, id: string, now: Time): (r: Result<(Store, Company)>)
    ensures r.Err? <==> FindByCnpjIn(st, dto.cnpj).Some?
    ensures r.Err? ==> r.error == Conflict("CNPJ already registered")
    ensures r.Ok? ==>
      && r.value.0 == st.(companies := st.companies + [r.value.1])
      && r.value.1 == Company(id, dto.name, dto.cnpj, dto.contactEmail, now)
  {
    if FindByCnpjIn(st, dto.cnpj).Some? then Err(Conflict("CNPJ already registered"))
    else
      var c := Company(id, dto.name, dto.cnpj, dto.contactEmail, now);
      Ok((st.(companies := st.companies + [c]), c))
  }

  /** Registration keeps CNPJs unique. */
  lemma CreateKeepsCnpjsUnique(st: Store, dto: NewCompany, id: string, now: Time)
    requires KeysDistinct(st.companies, CompanyCnpj)
    requires Create(st, dto, id, now).Ok?
    ensures KeysDistinct(Create(st, dto, id, now).value.0.companies, CompanyCnpj)
  {
    var cs := Create(st, dto, id, now).value.0.companies;
    forall i, j | 0 <= i < j < |cs|
      ensures CompanyCnpj(cs[i]) != CompanyCnpj(cs[j])
    {
      assert cs[i] == st.companies[i];
      if j < |st.companies| {
        assert cs[j] == st.companies[j];
      }
    }
  }

  /** Looking up a freshly registered CNPJ finds the new company. */
  lemma CreateThenFindByCnpj(st: Store, dto: NewCompany, id: string, now: Time)
    requires Create(st, dto, id, now).Ok?
    ensures FindByCnpj(Create(st, dto, id, now).value.0, dto.cnpj).Ok?
    ensures FindByCnpj(Create(st, dto, id, now).value.0, dto.cnpj).value.company
         == Create(st, dto, id, now).value.1
  {
    Users.FindAppendAbsent(st.companies, Create(st, dto, id, now).value.1, CompanyCnpj, dto.cnpj);
  }

  // ---------------------------------------------------------------------
  // create, as written
  // ---------------------------------------------------------------------

  /**
   * Columns a registration body can carry besides the fields the DTO
   * declares. The route's `ValidationPipe` has no `whitelist`, so they are
   * not stripped, and the service passes the whole body as the insert.
   */
  datatype UndeclaredNewCompanyColumns = UndeclaredNewCompanyColumns(id: Option<string>, createdAt: Option<Time>)

  const NoUndeclaredNewCompanyColumns := UndeclaredNewCompanyColumns(None, None)

  /** A registration body as it reaches the service. */
  datatype NewCompanyBody = NewCompanyBody(declared: NewCompany, undeclared: UndeclaredNewCompanyColumns)

  /**
   * `create` as written: the CNPJ check of `Create`, then the insert with
   * the undeclared columns written too. An id the body names that is
   * already taken fails the insert's unique constraint.
   */
  function CreateAsWritten(st: Store, body: NewCompanyBody, id: string, now: Time): (r: Result<(Store, Company)>)
    ensures FindByCnpjIn(st, body.declared.cnpj).Some? ==> r == Err(Conflict("CNPJ already registered"))
    ensures r.Ok? <==>
      FindByCnpjIn(st, body.declared.cnpj).None? && (body.undeclared.id.Some? ==> FindCompany(st, body.undeclared.id.value).None?)
    ensures r.Ok? ==>
      && r.value.0 == st.(companies := st.companies + [r.value.1])
      && r.value.1.id == body.undeclared.id.GetOr(id)
      && r.value.1.createdAt == body.undeclared.createdAt.GetOr(now)
      && r.value.1.(id := id, createdAt := now) == Company(id, body.declared.name, body.declared.cnpj, body.declared.contactEmail, now)
  {
    var dto := body.declared;
    if FindByCnpjIn(st, dto.cnpj).Some? then Err(Conflict("CNPJ already registered"))
    else if body.undeclared.id.Some? && FindCompany(st, body.undeclared.id.value).Some? then
      Err(StoreFailure("Unique constraint failed on the fields: (`id`)"))
    else
      var c := Company(body.undeclared.id.GetOr(id), dto.name, dto.cnpj, dto.contactEmail, body.undeclared.createdAt.GetOr(now));
      Ok((st.(companies := st.companies + [c]), c))
  }

  /** A body holding only the declared fields is registered as `Create` does. */
  lemma CreateAsWrittenAgreesOnDeclared(st: Store, body: NewCompanyBody, id: string, now: Time)
    requires body.undeclared == NoUndeclaredNewCompanyColumns
    ensures CreateAsWritten(st, body, id, now) == Create(st, body.declared, id, now)
  {
  }

  /**
   * As written, a registration body naming `createdAt` stores the company
   * dated whenever the caller chose; the registration the DTO declares
   * dates it now.
   */
  lemma AsWrittenCreateTakesGivenDate(st: Store, body: NewCompanyBody, id: string, now: Time, backdated: Time)
    requires FindByCnpjIn(st, body.declared.cnpj).None?
    requires body.undeclared == NoUndeclaredNewCompanyColumns.(createdAt := Some(backdated))
    ensures CreateAsWritten(st, body, id, now).Ok? && CreateAsWritten(st, body, id, now).value.1.createdAt == backdated
    ensures Create(st, body.declared, id, now).Ok? && Create(st, body.declared, id, now).value.1.createdAt == now
  {
  }

  // ---------------------------------------------------------------------
  // Views with dependant counts
  // ---------------------------------------------------------------------

  /** A company with its `_count` of users and conversations. */
  datatype CompanyView = CompanyView(company: Company, users: nat, conversations: nat)

  function OfCompany(id: string): Conversation -> bool {
    (c: Conversation) => c.companyId == id
  }

  function ConversationsOfCompany(st: Store, id: string): seq<Conversation> {
    Filter(OfCompany(id), st.conversations)
  }

  function View(st: Store, c: Company): (v: CompanyView)
    ensures v.company == c
    ensures v.users == |Users.UsersOfCompany(st, c.id)|
    ensures v.conversations == |ConversationsOfCompany(st, c.id)|
    ensures v.users == 0 <==> forall u :: u in st.users ==> u.companyId != c.id
    ensures v.conversations == 0 <==> forall k :: k in st.conversations ==> k.companyId != c.id
  {
    FilterEmptyIff((u: User) => u.companyId == c.id, st.users);
    FilterEmptyIff(OfCompany(c.id), st.conversations);
    CompanyView(c, |Users.UsersOfCompany(st, c.id)|, |ConversationsOfCompany(st, c.id)|)
  }

  // ---------------------------------------------------------------------
  // findAll / findOne / findByCnpj
  // ---------------------------------------------------------------------

  function NewestFirstKey(c: Company): int { -c.createdAt }

  /** The companies a filter selects, newest first (the default ordering). */
  function Selected(st: Store, where: Company -> bool): (r: seq<Company>)
    ensures forall c :: c in r <==> c in st.companies && where(c)
    ensures |r| == |Filter(where, st.companies)|
    ensures forall i, j :: 0 <= i < j < |r| ==> r[i].createdAt >= r[j].createdAt
  {
    var r := SortBy(Filter(where, st.companies), NewestFirstKey);
    forall c: Company
      ensures c in r <==> c in Filter(where, st.companies)
    {
      SortByMembers(Filter(where, st.companies), NewestFirstKey, c);
    }
    assert forall i, j :: 0 <= i < j < |r| ==> NewestFirstKey(r[i]) <= NewestFirstKey(r[j]);
    r
  }

  datatype CompanyPage = CompanyPage(data: seq<CompanyView>, meta: Meta)

  /** `findAll`: the requested page of the selected companies, newest first, with counts. */
  function FindAll(st: Store, params: PageParams, where: Company -> bool): (r: CompanyPage)
    ensures r.meta == PageMeta(|Filter(where, st.companies)|, SkipOf(params), TakeOf(params))
    ensures |r.data| <= TakeOf(params)
    ensures |r.data| == |PageOf(Selected(st, where), SkipOf(params), TakeOf(params))|
    ensures forall i :: 0 <= i < |r.data| ==> r.data[i] == View(st, Selected(st, where)[SkipOf(params) + i])
  {
    var rows := PageOf(Selected(st, where), SkipOf(params), TakeOf(params));
    CompanyPage(Map((c: Company) => View(st, c), rows),
                PageMeta(|Filter(where, st.companies)|, SkipOf(params), TakeOf(params)))
  }

  function FindOne(st: Store, id: string): (r: Result<CompanyView>)
    ensures r.Err? <==> forall c :: c in st.companies ==> c.id != id
    ensures r.Err? ==> r.error == NotFound("Company with ID " + id + " not found")
    ensures r.Ok? ==> r.value.company in st.companies && r.value.company.id == id
    ensures r.Ok? ==> r.value == View(st, r.value.company)
  {
    match FindCompany(st, id)
    case None => Err(NotFound("Company with ID " + id + " not found"))
    case Some(c) => Ok(View(st, c))
  }

  function FindByCnpj(st: Store, cnpj: string): (r: Result<CompanyView>)
    ensures r.Err? <==> forall c :: c in st.companies ==> c.cnpj != cnpj
    ensures r.Err? ==> r.error == NotFound("Company with CNPJ " + cnpj + " not found")
    ensures r.Ok? ==> r.value.company in st.companies && r.value.company.cnpj == cnpj
    ensures r.Ok? ==> r.value == View(st, r.value.company)
  {
    match FindByCnpjIn(st, cnpj)
    case None => Err(NotFound("Company with CNPJ " + cnpj + " not found"))
    case Some(c) => Ok(View(st, c))
  }

  // ---------------------------------------------------------------------
  // update
  // ---------------------------------------------------------------------

  /** Given fields replace the old ones; the id, CNPJ and creation time stay. */
  function Revised(c: Company, dto: CompanyChanges): (d: Company)
    ensures d.id == c.id && d.cnpj == c.cnpj && d.createdAt == c.createdAt
    ensures d.name == (if dto.name.Some? then dto.name.value else c.name)
    ensures d.contactEmail == (if dto.contactEmail.Some? then dto.contactEmail.value else c.contactEmail)
  {
    c.(name := dto.name.GetOr(c.name), contactEmail := dto.contactEmail.GetOr(c.contactEmail))
  }

  /** `update`: a missing company is not found; otherwise it is revised and returned with its counts. */
  function Update(st: Store, id: string, dto: CompanyChanges): (r: Result<(Store, CompanyView)>)
    ensures r.Err? <==> FindCompany(st, id).None?
    ensures r.Err? ==> r.error == NotFound("Company with ID " + id + " not found")
    ensures r.Ok? ==>
      && r.value.0 == st.(companies := r.value.0.companies)
      && |r.value.0.companies| == |st.companies|
      && (forall i :: 0 <= i < |st.companies| ==>
            r.value.0.companies[i] == if st.companies[i].id == id then Revised(st.companies[i], dto) else st.companies[i])
      && r.value.1 == View(st, Revised(FindCompany(st, id).value, dto))
  {
    match FindCompany(st, id)
    case None => Err(NotFound("Company with ID " + id + " not found"))
    case Some(c) =>
      var cs := Replace(st.companies, CompanyId, id, (x: Company) => Revised(x, dto));
      Ok((st.(companies := cs), View(st, Revised(c, dto))))
  }

  /** No update changes any company's CNPJ, so every CNPJ lookup still succeeds or fails as before. */
  lemma UpdateKeepsCnpjs(st: Store, id: string, dto: CompanyChanges, cnpj: string)
    requires Update(st, id, dto).Ok?
    ensures forall i :: 0 <= i < |st.companies| ==> Update(st, id, dto).value.0.companies[i].cnpj == st.companies[i].cnpj
    ensures FindByCnpj(Update(st, id, dto).value.0, cnpj).Ok? <==> FindByCnpj(st, cnpj).Ok?
  {
    var cs := Update(st, id, dto).value.0.companies;
    FindSameKeys(st.companies, cs, CompanyCnpj, cnpj);
  }

  // ---------------------------------------------------------------------
  // update, as written
  // ---------------------------------------------------------------------

  /**
   * A PATCH body as it reaches the service. The route's `ValidationPipe`
   * has no `whitelist`, so a `cnpj` the DTO leaves out is not stripped, and
   * the service passes the whole body to the update unchecked.
   */
  datatype CompanyBody = CompanyBody(declared: CompanyChanges, cnpj: Option<string>)

  /** The stored company after an update as written: a given CNPJ is written too, unvalidated. */
  function RevisedAsWritten(c: Company, body: CompanyBody): (d: Company)
    ensures d.cnpj == (if body.cnpj.Some? then body.cnpj.value else c.cnpj)
    ensures d.(cnpj := c.cnpj) == Revised(c, body.declared)
  {
    Revised(c, body.declared).(cnpj := body.cnpj.GetOr(c.cnpj))
  }

  /** `update` as written: like `Update`, with the body's CNPJ written too. */
  function UpdateAsWritten(st: Store, id: string, body: CompanyBody): (r: Result<(Store, CompanyView)>)
    ensures r.Err? <==> FindCompany(st, id).None?
    ensures r.Err? ==> r.error == NotFound("Company with ID " + id + " not found")
    ensures r.Ok? ==>
      && r.value.0 == st.(companies := r.value.0.companies)
      && |r.value.0.companies| == |st.companies|
      && (forall i :: 0 <= i < |st.companies| ==>
            r.value.0.companies[i] == if st.companies[i].id == id then RevisedAsWritten(st.companies[i], body) else st.companies[i])
      && r.value.1 == View(st, RevisedAsWritten(FindCompany(st, id).value, body))
  {
    match FindCompany(st, id)
    case None => Err(NotFound("Company with ID " + id + " not found"))
    case Some(c) =>
      var cs := Replace(st.companies, CompanyId, id, (x: Company) => RevisedAsWritten(x, body));
      Ok((st.(companies := cs), View(st, RevisedAsWritten(c, body))))
  }

  /** A body without a CNPJ is updated as `Update` does. */
  lemma UpdateAsWrittenAgreesOnDeclared(st: Store, id: string, body: CompanyBody)
    requires body.cnpj.None?
    ensures UpdateAsWritten(st, id, body) == Update(st, id, body.declared)
  {
    var f := (x: Company) => RevisedAsWritten(x, body);
    var g := (x: Company) => Revised(x, body.declared);
    ReplaceAgree(st.companies, CompanyId, id, f, g);
  }

  /** As written, the company updated takes the body's CNPJ, so a lookup by it succeeds. */
  lemma AsWrittenUpdateFindsCnpj(st: Store, id: string, body: CompanyBody, cnpj: string)
    requires FindCompany(st, id).Some?
    requires body.cnpj == Some(cnpj)
    ensures UpdateAsWritten(st, id, body).Ok?
    ensures FindByCnpj(UpdateAsWritten(st, id, body).value.0, cnpj).Ok?
  {
    var c := FindCompany(st, id).value;
    var i :| 0 <= i < |st.companies| && st.companies[i] == c;
    var cs := UpdateAsWritten(st, id, body).value.0.companies;
    assert cs[i] == RevisedAsWritten(st.companies[i], body);
    assert cs[i] in cs;
  }

  /**
   * As written, a body naming a CNPJ no company holds — valid or not —
   * moves the company to it: the lookup by that CNPJ now succeeds. Under
   * the declared update the same lookup still fails.
   */
  lemma AsWrittenUpdateRewritesCnpj(st: Store, id: string, body: CompanyBody, cnpj: string)
    requires FindCompany(st, id).Some?
    requires body.cnpj == Some(cnpj)
    requires forall c :: c in st.companies ==> c.cnpj != cnpj
    ensures UpdateAsWritten(st, id, body).Ok? && Update(st, id, body.declared).Ok?
    ensures FindByCnpj(UpdateAsWritten(st, id, body).value.0, cnpj).Ok?
    ensures FindByCnpj(Update(st, id, body.declared).value.0, cnpj).Err?
  {
    AsWrittenUpdateFindsCnpj(st, id, body, cnpj);
    UpdateKeepsCnpjs(st, id, body.declared, cnpj);
  }

  // ---------------------------------------------------------------------
  // remove
  // ---------------------------------------------------------------------

  /**
   * `remove`: a missing company is not found; a company with users, and
   * then one with conversations, is a conflict naming how many; otherwise
   * the company is deleted and nothing else changes.
   */
  function Remove(st: Store, id: string): (r: Result<(Store, Users.Removal)>)
    ensures r.Err? && FindCompany(st, id).None? ==> r.error == NotFound("Company with ID " + id + " not found")
    ensures FindCompany(st, id).Some? && Users.UsersOfCompany(st, id) != [] ==>
      r == Err(Conflict("Cannot delete company with " + NatToString(|Users.UsersOfCompany(st, id)|)
                        + " users. Remove users first."))
    ensures FindCompany(st, id).Some? && Users.UsersOfCompany(st, id) == [] && ConversationsOfCompany(st, id) != [] ==>
      r == Err(Conflict("Cannot delete company with " + NatToString(|ConversationsOfCompany(st, id)|)
                        + " conversations."))
    ensures r.Ok? <==>
      && FindCompany(st, id).Some?
      && (forall u :: u in st.users ==> u.companyId != id)
      && (forall c :: c in st.conversations ==> c.companyId != id)
    ensures r.Ok? ==>
      && r.value.0 == st.(companies := r.value.0.companies)
      && (forall c :: c in r.value.0.companies <==> c in st.companies && c.id != id)
      && r.value.1 == Users.Removal("Company " + FindCompany(st, id).value.name + " has been removed", id)
  {
    match FindCompany(st, id)
    case None => Err(NotFound("Company with ID " + id + " not found"))
    case Some(c) =>
      var v := View(st, c);
      if v.users > 0 then
        Err(Conflict("Cannot delete company with " + NatToString(v.users) + " users. Remove users first."))
      else if v.conversations > 0 then
        Err(Conflict("Cannot delete company with " + NatToString(v.conversations) + " conversations."))
      else
        Ok((st.(companies := Filter((x: Company) => x.id != id, st.companies)),
            Users.Removal("Company " + c.name + " has been removed", id)))
  }

  /** Every user and conversation names a company on file. */
  predicate CompanyReferencesIntact(st: Store) {
    && (forall u :: u in st.users ==> FindCompany(st, u.companyId).Some?)
    && (forall c :: c in st.conversations ==> FindCompany(st, c.companyId).Some?)
  }

  /** The dependency checks make removal keep every company reference valid. */
  lemma RemoveKeepsReferences(st: Store, id: string)
    requires CompanyReferencesIntact(st)
    requires Remove(st, id).Ok?
    ensures CompanyReferencesIntact(Remove(st, id).value.0)
  {
    var after := Remove(st, id).value.0;
    forall u | u in after.users
      ensures FindCompany(after, u.companyId).Some?
    {
      StillFound(st, after, id, u.companyId);
    }
    forall c | c in after.conversations
      ensures FindCompany(after, c.companyId).Some?
    {
      StillFound(st, after, id, c.companyId);
    }
  }

  lemma StillFound(st: Store, after: Store, id: string, other: string)
    requires other != id && FindCompany(st, other).Some?
    requires forall c :: c in after.companies <==> c in st.companies && c.id != id
    ensures FindCompany(after, other).Some?
  {
    var c := FindCompany(st, other).value;
    assert c in after.companies;
  }

  /** With unique ids, removal takes away exactly one company. */
  lemma RemoveTakesOne(st: Store, id: string)
    requires KeysDistinct(st.companies, CompanyId)
    requires Remove(st, id).Ok?
    ensures |Remove(st, id).value.0.companies| == |st.companies| - 1
  {
    var keep := (x: Company) => x.id != id;
    FilterComplement(keep, st.companies);
    KeyedOnce(st.companies, CompanyId, id, Not(keep));
  }

  // ---------------------------------------------------------------------
  // getStats
  // ---------------------------------------------------------------------

  /** The statuses that count as active. */
  predicate IsActive(c: Conversation) {
    c.status == Open || c.status == Waiting || c.status == Assigned
  }

  /** Exactly the closed conversations are not active. */
  lemma InactiveMeansClosed(c: Conversation)
    ensures !IsActive(c) <==> c.status == Closed
  {
  }

  /** A message belongs to the company that owns its conversation. */
  function MessageOfCompany(st: Store, id: string): Message -> bool {
    (m: Message) => FindConversation(st, m.conversationId).Some? && FindConversation(st, m.conversationId).value.companyId == id
  }

  datatype CompanyStats = CompanyStats(
    id: string,
    name: string,
    cnpj: string,
    usersTotal: nat,
    usersByRole: Counts<string>,
    conversationsTotal: nat,
    activeConversations: nat,
    messagesTotal: nat)

  /**
   * `getStats`: an unknown company is not found. Otherwise the company's
   * id, name and CNPJ, the head count and, for each role, the number of
   * its users holding it; the active conversations are the company's open,
   * waiting and assigned ones, and the rest are its closed ones.
   */
  function GetStats(st: Store, id: string): (r: Result<CompanyStats>)
    ensures r.Err? <==> FindCompany(st, id).None?
    ensures r.Err? ==> r.error == NotFound("Company with ID " + id + " not found")
    ensures r.Ok? ==>
      && r.value.id == id
      && r.value.name == FindCompany(st, id).value.name
      && r.value.cnpj == FindCompany(st, id).value.cnpj
      && r.value.usersTotal == |Users.UsersOfCompany(st, id)| == Total(r.value.usersByRole)
      && KeysUnique(r.value.usersByRole)
      && (forall role :: CountOf(r.value.usersByRole, role)
                         == |Filter((u: User) => u.role == role, Users.UsersOfCompany(st, id))|)
      && r.value.conversationsTotal == |ConversationsOfCompany(st, id)|
      && r.value.activeConversations + |Filter(Both(OfCompany(id), Not(IsActive)), st.conversations)|
         == r.value.conversationsTotal
      && r.value.activeConversations == |Filter(Both(OfCompany(id), IsActive), st.conversations)|
      && r.value.messagesTotal == |Filter(MessageOfCompany(st, id), st.messages)|
  {
    match FindOne(st, id)
    case Err(e) => Err(e)
    case Ok(v) =>
      FilterSplit(OfCompany(id), IsActive, st.conversations);
      assert forall role :: CountOf(Users.RoleCounts(st, id), role)
                            == |Filter((u: User) => u.role == role, Users.UsersOfCompany(st, id))| by {
        forall role: string
          ensures CountOf(Users.RoleCounts(st, id), role)
               == |Filter((u: User) => u.role == role, Users.UsersOfCompany(st, id))|
        {
          Users.RoleCountsCount(st, id, role);
        }
      }
      Ok(CompanyStats(v.company.id, v.company.name, v.company.cnpj, v.users, Users.RoleCounts(st, id),
                      |Filter(OfCompany(id), st.conversations)|,
                      |Filter(Both(OfCompany(id), IsActive), st.conversations)|,
                      |Filter(MessageOfCompany(st, id), st.messages)|))
  }

  /** Splitting what `p` keeps by `q`: the parts that pass and fail `q` add up to it. */
  lemma FilterSplit<T>(p: T -> bool, q: T -> bool, s: seq<T>)
    ensures |Filter(Both(p, q), s)| + |Filter(Both(p, Not(q)), s)| == |Filter(p, s)|
  {
    FilterFilter(p, q, s);
    FilterFilter(p, Not(q), s);
    FilterComplement(q, Filter(p, s));
  }
}
