/**
 * The user service: registration with its uniqueness and company checks,
 * the paginated listing, lookups, updates that re-hash a new password,
 * removal, and the per-company role statistics. Passwords are hashed by a
 * function passed in; no reply ever carries the stored hash.
 */
module Users {
  import opened Base
  import opened Records
  import opened Paging
  import opened Sorting
  import opened Tally

  /** The role a registration without one receives. */
  const DefaultRole := "user"

  /** The registration body. */
  datatype NewUser = NewUser(
    name: string,
    email: string,
    password: string,
    companyId: string,
    role: Option<string>,
    profilePhotoUrl: Option<string>)

  /** The update body the DTO declares: email and company are left out; every field is optional. */
  datatype UserChanges = UserChanges(
    name: Option<string>,
    role: Option<string>,
    profilePhotoUrl: Option<string>,
    password: Option<string>)

  /** The smallest password length the request bodies accept. */
  const MinPasswordLength := 8

  /** A user as the service returns it: every column except the password hash. */
  datatype PublicUser = PublicUser(
    id: string,
    email: string,
    name: string,
    role: string,
    companyId: string,
    profilePhotoUrl: Option<string>,
    isDeleted: bool,
    deletedAt: Option<Time>,
    lastActivityAt: Option<Time>,
    createdAt: Time)

  /** The columns the listing and `findOne` select. */
  datatype UserSummary = UserSummary(
    id: string,
    email: string,
    name: string,
    role: string,
    profilePhotoUrl: Option<string>,
    companyId: string,
    createdAt: Time)

  function Public(u: User): PublicUser {
    PublicUser(u.id, u.email, u.name, u.role, u.companyId, u.profilePhotoUrl,
               u.isDeleted, u.deletedAt, u.lastActivityAt, u.createdAt)
  }

  function Summary(u: User): UserSummary {
    UserSummary(u.id, u.email, u.name, u.role, u.profilePhotoUrl, u.companyId, u.createdAt)
  }

  /** Two users look the same in every reply exactly when they differ at most in their hash. */
  lemma PublicForgetsOnlyTheHash(u: User, v: User)
    ensures Public(u) == Public(v) <==> u.(passwordHash := v.passwordHash) == v
    ensures Public(u) == Public(v) ==> Summary(u) == Summary(v)
  {
  }

  // ---------------------------------------------------------------------
  // create
  // ---------------------------------------------------------------------

  function FindByEmailIn(st: Store, email: string): Option<User> {
    Find(st.users, UserEmail, email)
  }

  /**
   * Registration: a taken email is a conflict, checked first; an unknown
   * company is a bad request; otherwise the user is appended with the
   * hashed password and the default role when none is given.
   */
  function Create(st: Store, dto: NewUser, id: string, hash: string -> string, now: Time): (r: Result<(Store, PublicUser)>)
    ensures FindByEmailIn(st, dto.email).Some? ==> r == Err(Conflict("Email already registered"))
    ensures FindByEmailIn(st, dto.email).None? && FindCompany(st, dto.companyId).None? ==>
      r == Err(BadRequest("Company not found"))
    ensures r.Ok? <==> FindByEmailIn(st, dto.email).None? && FindCompany(st, dto.companyId).Some?
    ensures r.Ok? ==>
      && r.value.0 == st.(users := r.value.0.users)
      && |r.value.0.users| == |st.users| + 1
      && r.value.0.users[..|st.users|] == st.users
    ensures r.Ok? ==>
      var u := r.value.0.users[|st.users|];
      && u.id == id && u.email == dto.email && u.name == dto.name && u.companyId == dto.companyId
      && u.passwordHash == hash(dto.password)
      && u.role == (if dto.role.Some? then dto.role.value else DefaultRole)
      && u.profilePhotoUrl == dto.profilePhotoUrl
      && !u.isDeleted && u.createdAt == now
      && r.value.1 == Public(u)
  {
    if FindByEmailIn(st, dto.email).Some? then Err(Conflict("Email already registered"))
    else if FindCompany(st, dto.companyId).None? then Err(BadRequest("Company not found"))
    else
      var u := User(id, dto.email, dto.name, hash(dto.password), dto.role.GetOr(DefaultRole),
                    dto.companyId, dto.profilePhotoUrl, false, None, None, now);
      var users := st.users + [u];
      assert users[..|st.users|] == st.users;
      Ok((st.(users := users), Public(u)))
  }

  /** Registration keeps emails unique, since a taken email is refused. */
  lemma CreateKeepsEmailsUnique(st: Store, dto: NewUser, id: string, hash: string -> string, now: Time)
    requires KeysDistinct(st.users, UserEmail)
    requires Create(st, dto, id, hash, now).Ok?
    ensures KeysDistinct(Create(st, dto, id, hash, now).value.0.users, UserEmail)
  {
    var users := Create(st, dto, id, hash, now).value.0.users;
    forall i, j | 0 <= i < j < |users|
      ensures UserEmail(users[i]) != UserEmail(users[j])
    {
      if j == |st.users| {
        assert users[i] == st.users[i];
      } else {
        assert users[i] == st.users[i] && users[j] == st.users[j];
      }
    }
  }

  /** Looking up a freshly registered email finds the new user, without the hash. */
  lemma CreateThenFindByEmail(st: Store, dto: NewUser, id: string, hash: string -> string, now: Time)
    requires Create(st, dto, id, hash, now).Ok?
    ensures FindByEmail(Create(st, dto, id, hash, now).value.0, dto.email)
         == Ok(Create(st, dto, id, hash, now).value.1)
  {
    var r := Create(st, dto, id, hash, now).value;
    var users := r.0.users;
    var u := users[|st.users|];
    FindAppendAbsent(st.users, u, UserEmail, dto.email);
    assert users == st.users + [u];
  }

  /** Looking up a key absent from `s` in `s + [x]` finds `x` when it has that key. */
  lemma {:induction false} FindAppendAbsent<T>(s: seq<T>, x: T, key: T -> string, k: string)
    requires Find(s, key, k).None? && key(x) == k
    ensures Find(s + [x], key, k) == Some(x)
  {
    if s != [] {
      assert (s + [x])[1..] == s[1..] + [x];
      FindAppendAbsent(s[1..], x, key, k);
    } else {
      assert s + [x] == [x];
    }
  }

  // ---------------------------------------------------------------------
  // create, as written
  // ---------------------------------------------------------------------

  /**
   * Columns a registration body can carry besides the fields the DTO
   * declares. The route's `ValidationPipe` has no `whitelist`, so they are
   * not stripped, and the service spreads the whole body, less the
   * password, into the insert; only `passwordHash` is set after the spread.
   */
  datatype UndeclaredNewUserColumns = UndeclaredNewUserColumns(
    id: Option<string>,
    isDeleted: Option<bool>,
    deletedAt: Option<Time>,
    lastActivityAt: Option<Time>,
    createdAt: Option<Time>)

  const NoUndeclaredNewUserColumns := UndeclaredNewUserColumns(None, None, None, None, None)

  /** A registration body as it reaches the service. */
  datatype NewUserBody = NewUserBody(declared: NewUser, undeclared: UndeclaredNewUserColumns)

  /** The row inserted as written: each undeclared column the body names replaces the default. */
  function InsertedAsWritten(body: NewUserBody, id: string, hash: string -> string, now: Time): (u: User)
    ensures u.id == body.undeclared.id.GetOr(id)
    ensures u.isDeleted == body.undeclared.isDeleted.GetOr(false)
    ensures u.createdAt == body.undeclared.createdAt.GetOr(now)
    ensures u.passwordHash == hash(body.declared.password)
  {
    var dto := body.declared;
    var given := body.undeclared;
    User(given.id.GetOr(id), dto.email, dto.name, hash(dto.password), dto.role.GetOr(DefaultRole),
         dto.companyId, dto.profilePhotoUrl, given.isDeleted.GetOr(false), given.deletedAt,
         given.lastActivityAt, given.createdAt.GetOr(now))
  }

  /**
   * `create` as written: the checks of `Create`, then the insert with the
   * undeclared columns written too. An id the body names that is already
   * taken fails the insert's unique constraint.
   */
  function CreateAsWritten(st: Store, body: NewUserBody, id: string, hash: string -> string, now: Time)
    : (r: Result<(Store, PublicUser)>)
    ensures FindByEmailIn(st, body.declared.email).Some? ==> r == Err(Conflict("Email already registered"))
    ensures FindByEmailIn(st, body.declared.email).None? && FindCompany(st, body.declared.companyId).None? ==>
      r == Err(BadRequest("Company not found"))
    ensures r.Ok? <==>
      && FindByEmailIn(st, body.declared.email).None? && FindCompany(st, body.declared.companyId).Some?
      && (body.undeclared.id.Some? ==> FindUser(st, body.undeclared.id.value).None?)
    ensures r.Ok? ==>
      && r.value.0 == st.(users := st.users + [InsertedAsWritten(body, id, hash, now)])
      && r.value.1 == Public(InsertedAsWritten(body, id, hash, now))
  {
    var dto := body.declared;
    if FindByEmailIn(st, dto.email).Some? then Err(Conflict("Email already registered"))
    else if FindCompany(st, dto.companyId).None? then Err(BadRequest("Company not found"))
    else if body.undeclared.id.Some? && FindUser(st, body.undeclared.id.value).Some? then
      Err(StoreFailure("Unique constraint failed on the fields: (`id`)"))
    else
      var u := InsertedAsWritten(body, id, hash, now);
      Ok((st.(users := st.users + [u]), Public(u)))
  }

  /** A body holding only the declared fields is registered as `Create` does. */
  lemma CreateAsWrittenAgreesOnDeclared(st: Store, body: NewUserBody, id: string, hash: string -> string, now: Time)
    requires body.undeclared == NoUndeclaredNewUserColumns
    ensures CreateAsWritten(st, body, id, hash, now) == Create(st, body.declared, id, hash, now)
  {
    var r := Create(st, body.declared, id, hash, now);
    if r.Ok? {
      assert r.value.0.users == st.users + [r.value.0.users[|st.users|]];
    }
  }

  /**
   * As written, a registration body naming `isDeleted` and `createdAt`
   * stores a user already marked deleted and dated whenever the caller
   * chose; the registration the DTO declares stores a live user created now.
   */
  lemma AsWrittenCreateTakesGivenColumns(st: Store, body: NewUserBody, id: string, hash: string -> string, now: Time,
                                         backdated: Time)
    requires FindByEmailIn(st, body.declared.email).None? && FindCompany(st, body.declared.companyId).Some?
    requires body.undeclared == NoUndeclaredNewUserColumns.(isDeleted := Some(true), createdAt := Some(backdated))
    ensures CreateAsWritten(st, body, id, hash, now).Ok? && Create(st, body.declared, id, hash, now).Ok?
    ensures var u := CreateAsWritten(st, body, id, hash, now).value.0.users[|st.users|];
      u.isDeleted && u.createdAt == backdated
    ensures var u := Create(st, body.declared, id, hash, now).value.0.users[|st.users|];
      !u.isDeleted && u.createdAt == now
  {
  }

  // ---------------------------------------------------------------------
  // findAll / findByCompany
  // ---------------------------------------------------------------------

  function NewestFirstKey(u: User): int { -u.createdAt }

  /** The users a filter selects, newest first (the default ordering). */
  function Selected(st: Store, where: User -> bool): (r: seq<User>)
    ensures forall u :: u in r <==> u in st.users && where(u)
    ensures |r| == |Filter(where, st.users)|
    ensures forall i, j :: 0 <= i < j < |r| ==> r[i].createdAt >= r[j].createdAt
  {
    var r := SortBy(Filter(where, st.users), NewestFirstKey);
    SortByMembersAll(Filter(where, st.users), NewestFirstKey);
    assert forall i, j :: 0 <= i < j < |r| ==> NewestFirstKey(r[i]) <= NewestFirstKey(r[j]);
    r
  }

  lemma SortByMembersAll(s: seq<User>, key: User -> int)
    ensures forall u :: u in SortBy(s, key) <==> u in s
  {
    forall u: User
      ensures u in SortBy(s, key) <==> u in s
    {
      SortByMembers(s, key, u);
    }
  }

  datatype UserPage = UserPage(data: seq<UserSummary>, meta: Meta)

  /**
   * `findAll`: the requested page of the selected users, newest first,
   * with the total number selected and the page arithmetic.
   */
  function FindAll(st: Store, params: PageParams, where: User -> bool): (r: UserPage)
    ensures r.meta == PageMeta(|Filter(where, st.users)|, SkipOf(params), TakeOf(params))
    ensures |r.data| <= TakeOf(params)
    ensures |r.data| == |PageOf(Selected(st, where), SkipOf(params), TakeOf(params))|
    ensures forall i :: 0 <= i < |r.data| ==> r.data[i] == Summary(Selected(st, where)[SkipOf(params) + i])
  {
    var rows := PageOf(Selected(st, where), SkipOf(params), TakeOf(params));
    UserPage(Map(Summary, rows), PageMeta(|Filter(where, st.users)|, SkipOf(params), TakeOf(params)))
  }

  /** `findByCompany`: the first page of ten of one company's users. */
  function FindByCompany(st: Store, companyId: string): (r: UserPage)
    ensures r.meta.limit == DefaultTake && r.meta.page == Some(1)
    ensures r.meta.total == |Filter((u: User) => u.companyId == companyId, st.users)|
    ensures |r.data| <= DefaultTake
    ensures forall s :: s in r.data ==> s.companyId == companyId
  {
    var r := FindAll(st, PageParams(None, None), (u: User) => u.companyId == companyId);
    assert forall i :: 0 <= i < |r.data| ==> r.data[i].companyId == companyId by {
      forall i | 0 <= i < |r.data|
        ensures r.data[i].companyId == companyId
      {
        var sel := Selected(st, (u: User) => u.companyId == companyId);
        assert sel[i] in sel;
      }
    }
    r
  }

  // ---------------------------------------------------------------------
  // findOne / findByEmail
  // ---------------------------------------------------------------------

  function FindOne(st: Store, id: string): (r: Result<UserSummary>)
    ensures r.Err? <==> forall u :: u in st.users ==> u.id != id
    ensures r.Err? ==> r.error == NotFound("User with ID " + id + " not found")
    ensures r.Ok? ==> r.value.id == id && exists u :: u in st.users && r.value == Summary(u)
  {
    match FindUser(st, id)
    case None => Err(NotFound("User with ID " + id + " not found"))
    case Some(u) => Ok(Summary(u))
  }

  function FindByEmail(st: Store, email: string): (r: Result<PublicUser>)
    ensures r.Err? <==> forall u :: u in st.users ==> u.email != email
    ensures r.Err? ==> r.error == NotFound("User with email " + email + " not found")
    ensures r.Ok? ==> r.value.email == email && exists u :: u in st.users && r.value == Public(u)
  {
    match FindByEmailIn(st, email)
    case None => Err(NotFound("User with email " + email + " not found"))
    case Some(u) => Ok(Public(u))
  }

  // ---------------------------------------------------------------------
  // update
  // ---------------------------------------------------------------------

  /**
   * The stored user after an update: given fields replace the old ones,
   * a given password replaces the hash, and nothing else moves.
   */
  function Revised(u: User, dto: UserChanges, hash: string -> string): (v: User)
    requires dto.password.Some? ==> |dto.password.value| >= MinPasswordLength
    ensures v.id == u.id && v.email == u.email && v.companyId == u.companyId
    ensures v.isDeleted == u.isDeleted && v.createdAt == u.createdAt && v.lastActivityAt == u.lastActivityAt
    ensures v.name == (if dto.name.Some? then dto.name.value else u.name)
    ensures v.role == (if dto.role.Some? then dto.role.value else u.role)
    ensures v.profilePhotoUrl == (if dto.profilePhotoUrl.Some? then dto.profilePhotoUrl else u.profilePhotoUrl)
    ensures v.passwordHash == (if dto.password.Some? then hash(dto.password.value) else u.passwordHash)
  {
    u.(name := dto.name.GetOr(u.name),
       role := dto.role.GetOr(u.role),
       profilePhotoUrl := if dto.profilePhotoUrl.Some? then dto.profilePhotoUrl else u.profilePhotoUrl,
       passwordHash := if Given(dto.password) then hash(dto.password.value) else u.passwordHash)
  }

  /**
   * `update`: a missing user is not found; otherwise that user is revised
   * and returned without the hash. The body's validation admits only
   * passwords of at least eight characters.
   */
  function Update(st: Store, id: string, dto: UserChanges, hash: string -> string): (r: Result<(Store, PublicUser)>)
    requires dto.password.Some? ==> |dto.password.value| >= MinPasswordLength
    ensures r.Err? <==> FindUser(st, id).None?
    ensures r.Err? ==> r.error == NotFound("User with ID " + id + " not found")
    ensures r.Ok? ==>
      && r.value.0 == st.(users := r.value.0.users)
      && |r.value.0.users| == |st.users|
      && (forall i :: 0 <= i < |st.users| && st.users[i].id != id ==> r.value.0.users[i] == st.users[i])
      && (forall i :: 0 <= i < |st.users| && st.users[i].id == id ==>
            r.value.0.users[i] == Revised(st.users[i], dto, hash))
      && r.value.1 == Public(Revised(FindUser(st, id).value, dto, hash))
  {
    match FindUser(st, id)
    case None => Err(NotFound("User with ID " + id + " not found"))
    case Some(u) =>
      var users := Replace(st.users, UserId, id, (v: User) => Revised(v, dto, hash));
      Ok((st.(users := users), Public(Revised(u, dto, hash))))
  }

  /** An update without a password leaves the stored hash alone; with one, only its hash is stored. */
  lemma UpdatePasswordOnlyHashed(st: Store, id: string, dto: UserChanges, hash: string -> string, i: int)
    requires dto.password.Some? ==> |dto.password.value| >= MinPasswordLength
    requires Update(st, id, dto, hash).Ok? && 0 <= i < |st.users|
    ensures dto.password.None? ==> Update(st, id, dto, hash).value.0.users[i].passwordHash == st.users[i].passwordHash
    ensures dto.password.Some? && st.users[i].id == id ==>
      Update(st, id, dto, hash).value.0.users[i].passwordHash == hash(dto.password.value)
  {
  }

  // ---------------------------------------------------------------------
  // update, as written
  // ---------------------------------------------------------------------

  /**
   * Columns a PATCH body can carry besides the fields the update DTO
   * declares. The route's `ValidationPipe` has no `whitelist`, so they are
   * not stripped, and the service spreads the whole body into the update.
   */
  datatype UndeclaredUserColumns = UndeclaredUserColumns(
    email: Option<string>,
    companyId: Option<string>,
    passwordHash: Option<string>)

  const NoUndeclaredUserColumns := UndeclaredUserColumns(None, None, None)

  /** A PATCH body as it reaches the service. */
  datatype UserBody = UserBody(declared: UserChanges, undeclared: UndeclaredUserColumns)

  /**
   * The stored user after an update as written: every column the body
   * names is written, and the hash of a given password then replaces any
   * `passwordHash` the body carried.
   */
  function RevisedAsWritten(u: User, body: UserBody, hash: string -> string): (v: User)
    requires body.declared.password.Some? ==> |body.declared.password.value| >= MinPasswordLength
    ensures v.email == (if body.undeclared.email.Some? then body.undeclared.email.value else u.email)
    ensures v.companyId == (if body.undeclared.companyId.Some? then body.undeclared.companyId.value else u.companyId)
    ensures v.passwordHash ==
      if body.declared.password.Some? then hash(body.declared.password.value)
      else if body.undeclared.passwordHash.Some? then body.undeclared.passwordHash.value
      else u.passwordHash
    ensures v.(email := u.email, companyId := u.companyId, passwordHash := u.passwordHash)
         == Revised(u, body.declared, hash).(passwordHash := u.passwordHash)
  {
    var given := body.undeclared;
    Revised(u, body.declared, hash).(
      email := given.email.GetOr(u.email),
      companyId := given.companyId.GetOr(u.companyId),
      passwordHash := if Given(body.declared.password) then hash(body.declared.password.value)
                      else given.passwordHash.GetOr(u.passwordHash))
  }

  /** `update` as written: like `Update`, with the undeclared columns written too. */
  function UpdateAsWritten(st: Store, id: string, body: UserBody, hash: string -> string): (r: Result<(Store, PublicUser)>)
    requires body.declared.password.Some? ==> |body.declared.password.value| >= MinPasswordLength
    ensures r.Err? <==> FindUser(st, id).None?
    ensures r.Err? ==> r.error == NotFound("User with ID " + id + " not found")
    ensures r.Ok? ==>
      && r.value.0 == st.(users := r.value.0.users)
      && |r.value.0.users| == |st.users|
      && (forall i :: 0 <= i < |st.users| && st.users[i].id != id ==> r.value.0.users[i] == st.users[i])
      && (forall i :: 0 <= i < |st.users| && st.users[i].id == id ==>
            r.value.0.users[i] == RevisedAsWritten(st.users[i], body, hash))
      && r.value.1 == Public(RevisedAsWritten(FindUser(st, id).value, body, hash))
  {
    match FindUser(st, id)
    case None => Err(NotFound("User with ID " + id + " not found"))
    case Some(u) =>
      var users := Replace(st.users, UserId, id, (v: User) => RevisedAsWritten(v, body, hash));
      Ok((st.(users := users), Public(RevisedAsWritten(u, body, hash))))
  }

  /** A body holding only the declared fields is updated as `Update` does. */
  lemma UpdateAsWrittenAgreesOnDeclared(st: Store, id: string, body: UserBody, hash: string -> string)
    requires body.declared.password.Some? ==> |body.declared.password.value| >= MinPasswordLength
    requires body.undeclared == NoUndeclaredUserColumns
    ensures UpdateAsWritten(st, id, body, hash) == Update(st, id, body.declared, hash)
  {
    var f := (v: User) => RevisedAsWritten(v, body, hash);
    var g := (v: User) => Revised(v, body.declared, hash);
    forall v: User ensures f(v) == g(v) {
    }
    ReplaceAgree(st.users, UserId, id, f, g);
  }

  /**
   * As written, a body that names `email`, `companyId` or `passwordHash`
   * rewrites those columns, storing the given hash as it is; the update the
   * DTO declares keeps all three.
   */
  lemma AsWrittenUpdateRewritesCredentials(st: Store, id: string, body: UserBody, hash: string -> string, i: int)
    requires body.declared.password.None?
    requires 0 <= i < |st.users| && st.users[i].id == id
    ensures UpdateAsWritten(st, id, body, hash).Ok? && Update(st, id, body.declared, hash).Ok?
    ensures var v := UpdateAsWritten(st, id, body, hash).value.0.users[i];
      && (body.undeclared.email.Some? ==> v.email == body.undeclared.email.value)
      && (body.undeclared.companyId.Some? ==> v.companyId == body.undeclared.companyId.value)
      && (body.undeclared.passwordHash.Some? ==> v.passwordHash == body.undeclared.passwordHash.value)
    ensures var w := Update(st, id, body.declared, hash).value.0.users[i];
      w.email == st.users[i].email && w.companyId == st.users[i].companyId && w.passwordHash == st.users[i].passwordHash
  {
    assert FindUser(st, id).Some?;
  }

  // ---------------------------------------------------------------------
  // remove
  // ---------------------------------------------------------------------

  datatype Removal = Removal(message: string, id: string)

  /** `remove`: a hard delete of the user with that id. */
  function Remove(st: Store, id: string): (r: Result<(Store, Removal)>)
    ensures r.Err? <==> FindUser(st, id).None?
    ensures r.Err? ==> r.error == NotFound("User with ID " + id + " not found")
    ensures r.Ok? ==>
      && r.value.0 == st.(users := r.value.0.users)
      && (forall u :: u in r.value.0.users <==> u in st.users && u.id != id)
      && IsSubsequence(r.value.0.users, st.users)
      && r.value.1 == Removal("User " + FindUser(st, id).value.email + " has been removed", id)
  {
    match FindUser(st, id)
    case None => Err(NotFound("User with ID " + id + " not found"))
    case Some(u) =>
      var keep := (v: User) => v.id != id;
      FilterIsSubsequence(keep, st.users);
      Ok((st.(users := Filter(keep, st.users)), Removal("User " + u.email + " has been removed", id)))
  }

  /** With unique ids, removal takes away exactly one user. */
  lemma RemoveTakesOne(st: Store, id: string)
    requires KeysDistinct(st.users, UserId)
    requires Remove(st, id).Ok?
    ensures |Remove(st, id).value.0.users| == |st.users| - 1
  {
    var keep := (v: User) => v.id != id;
    FilterComplement(keep, st.users);
    KeyedOnce(st.users, UserId, id, Not(keep));
  }

  // ---------------------------------------------------------------------
  // getStatsByCompany
  // ---------------------------------------------------------------------

  function UsersOfCompany(st: Store, companyId: string): seq<User> {
    Filter((u: User) => u.companyId == companyId, st.users)
  }

  function RoleOf(u: User): string { u.role }

  /** One count per role among a company's users, keyed by role. */
  function RoleCounts(st: Store, companyId: string): (r: Counts<string>)
    ensures KeysUnique(r)
    ensures Total(r) == |UsersOfCompany(st, companyId)|
    ensures forall i :: 0 <= i < |r| ==> r[i].1 > 0
  {
    var roles := Map(RoleOf, UsersOfCompany(st, companyId));
    TallyOfCounts(roles, "");
    var r := TallyOf(roles);
    forall i | 0 <= i < |r|
      ensures r[i].1 > 0
    {
      TallyEntry(roles, i);
      EntryInTally(roles, i);
      OccurrencesOfMember(roles, r[i].0);
    }
    r
  }

  /** Every key of a tally occurs among the tallied keys. */
  lemma EntryInTally(keys: seq<string>, i: int)
    requires 0 <= i < |TallyOf(keys)|
    ensures TallyOf(keys)[i].0 in keys
  {
    var t := TallyOf(keys);
    var k := t[i].0;
    TallyOfCounts(keys, k);
    EntryCount(t, i);
    if k !in keys {
      OccurrencesAbsent(keys, k);
    }
  }

  lemma {:induction false} OccurrencesAbsent(s: seq<string>, x: string)
    requires x !in s
    ensures Occurrences(s, x) == 0
  {
    if s != [] {
      OccurrencesAbsent(s[1..], x);
    }
  }

  /** The number beside each role is the number of the company's users holding it. */
  lemma RoleCountsCount(st: Store, companyId: string, role: string)
    ensures CountOf(RoleCounts(st, companyId), role)
         == |Filter((u: User) => u.role == role, UsersOfCompany(st, companyId))|
  {
    var us := UsersOfCompany(st, companyId);
    TallyOfCounts(Map(RoleOf, us), role);
    OccurrencesMap(us, role);
  }

  lemma {:induction false} OccurrencesMap(us: seq<User>, role: string)
    ensures Occurrences(Map(RoleOf, us), role) == |Filter((u: User) => u.role == role, us)|
  {
    if us != [] {
      OccurrencesMap(us[1..], role);
      assert Map(RoleOf, us)[1..] == Map(RoleOf, us[1..]);
    }
  }

  datatype UserStats = UserStats(total: nat, byRole: Counts<string>)

  /** `getStatsByCompany`: the company's head count and its split by role. */
  function StatsByCompany(st: Store, companyId: string): (r: UserStats)
    ensures r.total == |UsersOfCompany(st, companyId)|
    ensures r.total == Total(r.byRole) && KeysUnique(r.byRole)
    ensures forall role :: CountOf(r.byRole, role)
                        == |Filter((u: User) => u.role == role, UsersOfCompany(st, companyId))|
  {
    forall role ensures CountOf(RoleCounts(st, companyId), role)
                     == |Filter((u: User) => u.role == role, UsersOfCompany(st, companyId))| {
      RoleCountsCount(st, companyId, role);
    }
    UserStats(|UsersOfCompany(st, companyId)|, RoleCounts(st, companyId))
  }
}
