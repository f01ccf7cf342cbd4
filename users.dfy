/** The users service: administrative creation, the soft-delete-aware
    listing and lookup, profile and role updates, and the soft delete that
    refuses to remove the last live SUPER_ADMIN. */
module Users {
  import opened Common
  import opened Enums
  import opened Crypto
  import opened Encoding
  import opened Entities
  import opened Dtos
  import opened Pagination
  import Auth

  const USER_NOT_FOUND := "User not found"
  const LAST_SUPER_ADMIN := "Cannot delete the last SUPER_ADMIN"

  /** A user as `UserResponseDto` serialises it: the password, refresh hash,
      lockout fields and `deletedAt` are excluded (`updatedAt` is not
      modelled). The `@Exclude` marks take effect only when class-transformer
      serialisation (a `ClassSerializerInterceptor`) is active, which the
      application module does not register; the view assumes it is on. */
  datatype UserView = UserView(
    id: Id, email: string, firstName: string, lastName: string, role: Role,
    isActive: bool, lastLoginAt: Option<Time>, createdAt: Time)

  function View(id: Id, u: User): UserView {
    UserView(id, u.email, u.firstName, u.lastName, u.role, u.isActive, u.lastLoginAt, u.createdAt)
  }

  /** The ids of the rows that are not soft-deleted. */
  function LiveUserIds(users: map<Id, User>): set<Id> {
    set id | id in users && users[id].Live()
  }

  /** The live SUPER_ADMIN rows: what `count({ role: SUPER_ADMIN, deletedAt: null })` counts. */
  function SuperAdmins(users: map<Id, User>): set<Id> {
    set id | id in users && users[id].Live() && users[id].role == SUPER_ADMIN
  }

  function ViewsOf(users: map<Id, User>, ids: seq<Id>): (r: seq<UserView>)
    requires forall k :: 0 <= k < |ids| ==> ids[k] in users
    ensures |r| == |ids|
    ensures forall k :: 0 <= k < |r| ==> r[k] == View(ids[k], users[ids[k]])
  {
    seq(|ids|, k requires 0 <= k < |ids| => View(ids[k], users[ids[k]]))
  }

  // ---- reads ----

  /** `findAll`: one page of the live rows in the store's order (newest
      first), with a meta that counts every live row and nothing else. */
  function FindAll(users: map<Id, User>, page: int, limit: int, ordered: seq<Id>): (r: Listing<UserView>)
    requires page >= 1 && limit >= 1
    requires Lists(ordered, LiveUserIds(users))
    ensures r.meta == Meta(page, limit, |LiveUserIds(users)|)
    ensures |r.data| <= limit
    ensures r.data == ViewsOf(users, Page(ordered, page, limit))
    ensures forall k :: 0 <= k < |r.data| ==>
      r.data[k].id in LiveUserIds(users) && r.data[k] == View(r.data[k].id, users[r.data[k].id])
  {
    ListedPage(ordered, LiveUserIds(users), page, limit);
    var rows := Page(ordered, page, limit);
    Listing(ViewsOf(users, rows), Meta(page, limit, |ordered|))
  }

  /** `findOne`: a live row, or NotFound. */
  function FindOne(users: map<Id, User>, id: Id): (r: Result<UserView>)
    ensures r.Ok? <==> LiveUser(users, id)
    ensures r.Ok? ==> r.value == View(id, users[id])
    ensures r.Err? ==> r.error == NotFound(USER_NOT_FOUND)
  {
    if LiveUser(users, id) then Ok(View(id, users[id])) else Err(NotFound(USER_NOT_FOUND))
  }

  // ---- writes, as steps ----

  /** `create`: a conflict when any row, live or soft-deleted, has the
      email; otherwise the DTO's fields with the hashed password, and the
      role the DTO names or else `defaultRole`, the schema's default. */
  function CreateStep(users: map<Id, User>, dto: CreateUserDto, defaultRole: Role, id: Id, salt: nat, now: Time): Step<UserView, map<Id, User>>
    requires dto.role.Some? ==> ParseRole(dto.role.value).Some?
  {
    if exists k :: k in users && users[k].email == dto.email then
      Step(Err(Conflict(USER_EXISTS)), users)
    else
      var role := if dto.role.Some? then ParseRole(dto.role.value).value else defaultRole;
      var u := NewUser(dto.email, Hash(dto.password, salt), dto.firstName, dto.lastName, role, now);
      Step(Ok(View(id, u)), users[id := u])
  }

  /** The fields `update` writes: those the DTO carries. */
  function ApplyUpdate(u: User, dto: UpdateUserDto): User {
    u.(firstName := dto.firstName.GetOr(u.firstName),
       lastName := dto.lastName.GetOr(u.lastName),
       isActive := dto.isActive.GetOr(u.isActive))
  }

  function UpdateStep(users: map<Id, User>, id: Id, dto: UpdateUserDto): Step<UserView, map<Id, User>> {
    if !LiveUser(users, id) then Step(Err(NotFound(USER_NOT_FOUND)), users)
    else
      var u := ApplyUpdate(users[id], dto);
      Step(Ok(View(id, u)), users[id := u])
  }

  function UpdateRoleStep(users: map<Id, User>, id: Id, role: Role): Step<UserView, map<Id, User>> {
    if !LiveUser(users, id) then Step(Err(NotFound(USER_NOT_FOUND)), users)
    else
      var u := users[id].(role := role);
      Step(Ok(View(id, u)), users[id := u])
  }

  function RemoveStep(users: map<Id, User>, id: Id, now: Time): Step<(), map<Id, User>> {
    if !LiveUser(users, id) then Step(Err(NotFound(USER_NOT_FOUND)), users)
    else if users[id].role == SUPER_ADMIN && |SuperAdmins(users)| <= 1 then
      Step(Err(Forbidden(LAST_SUPER_ADMIN)), users)
    else Step(Ok(()), users[id := users[id].(deletedAt := Some(now))])
  }

  // ---- the service ----

  /** `UsersService`; `defaultRole` is the schema's default role. */
  class UsersService {
    const db: Database
    const defaultRole: Role

    constructor (db: Database, defaultRole: Role)
      ensures this.db == db && this.defaultRole == defaultRole
    {
      this.db := db;
      this.defaultRole := defaultRole;
    }

    method Create(dto: CreateUserDto, id: Id, salt: nat, now: Time) returns (r: Result<UserView>)
      requires db.Valid() && id !in db.users
      requires dto.role.Some? ==> ParseRole(dto.role.value).Some?
      modifies db`users
      ensures db.Valid()
      ensures Step(r, db.users) == CreateStep(old(db.users), dto, defaultRole, id, salt, now)
    {
      if exists k :: k in db.users && db.users[k].email == dto.email {
        return Err(Conflict(USER_EXISTS));
      }
      var hashedPassword := Hash(dto.password, salt);
      var role := defaultRole;
      if dto.role.Some? {
        role := ParseRole(dto.role.value).value;
      }
      var user := NewUser(dto.email, hashedPassword, dto.firstName, dto.lastName, role, now);
      UniqueUserEmailsAfterInsert(db.users, id, user);
      db.users := db.users[id := user];
      r := Ok(View(id, user));
    }

    method Update(id: Id, dto: UpdateUserDto) returns (r: Result<UserView>)
      requires db.Valid()
      modifies db`users
      ensures db.Valid()
      ensures Step(r, db.users) == UpdateStep(old(db.users), id, dto)
    {
      if !LiveUser(db.users, id) {
        return Err(NotFound(USER_NOT_FOUND));
      }
      var user := ApplyUpdate(db.users[id], dto);
      UniqueUserEmailsAfterUpdate(db.users, id, user);
      db.users := db.users[id := user];
      r := Ok(View(id, user));
    }

    method UpdateRole(id: Id, role: Role) returns (r: Result<UserView>)
      requires db.Valid()
      modifies db`users
      ensures db.Valid()
      ensures Step(r, db.users) == UpdateRoleStep(old(db.users), id, role)
    {
      if !LiveUser(db.users, id) {
        return Err(NotFound(USER_NOT_FOUND));
      }
      var user := db.users[id].(role := role);
      UniqueUserEmailsAfterUpdate(db.users, id, user);
      db.users := db.users[id := user];
      r := Ok(View(id, user));
    }

    method Remove(id: Id, now: Time) returns (r: Result<()>)
      requires db.Valid()
      modifies db`users
      ensures db.Valid()
      ensures Step(r, db.users) == RemoveStep(old(db.users), id, now)
    {
      if !LiveUser(db.users, id) {
        return Err(NotFound(USER_NOT_FOUND));
      }
      var existing := db.users[id];
      if existing.role == SUPER_ADMIN {
        var superAdminCount := |SuperAdmins(db.users)|;
        if superAdminCount <= 1 {
          return Err(Forbidden(LAST_SUPER_ADMIN));
        }
      }
      UniqueUserEmailsAfterUpdate(db.users, id, existing.(deletedAt := Some(now)));
      db.users := db.users[id := existing.(deletedAt := Some(now))];
      r := Ok(());
    }
  }

  // ---- properties ----

  /** Creation conflicts exactly when some row, soft-deleted included, has
      the email; otherwise exactly one row is added, with the role the DTO
      names or else the default role, and the digest of the given password,
      which accepts exactly the passwords whose first 72 UTF-8 bytes are the
      given password's (for a password shorter than 72 bytes, it alone);
      the reply carries no secret. */
  lemma CreateConflictOrInsert(users: map<Id, User>, dto: CreateUserDto, defaultRole: Role, id: Id, salt: nat, now: Time)
    requires id !in users
    requires dto.role.Some? ==> ParseRole(dto.role.value).Some?
    ensures var s := CreateStep(users, dto, defaultRole, id, salt, now);
      (s.result.Err? <==> exists k :: k in users && users[k].email == dto.email)
      && (s.result.Err? ==> s.result.error == Conflict(USER_EXISTS) && s.state == users)
      && (s.result.Ok? ==>
            s.state.Keys == users.Keys + {id}
            && (forall k :: k in users ==> s.state[k] == users[k])
            && s.state[id].email == dto.email && s.state[id].firstName == dto.firstName
            && s.state[id].lastName == dto.lastName
            && (dto.role.Some? ==> RoleName(s.state[id].role) == dto.role.value)
            && (dto.role.None? ==> s.state[id].role == defaultRole)
            && s.state[id].password == Hash(dto.password, salt)
            && (forall p :: Compare(p, s.state[id].password) <==> BcryptInput(p) == BcryptInput(dto.password))
            && (|Utf8(dto.password)| < BCRYPT_MAX_BYTES ==>
                  forall p :: Compare(p, s.state[id].password) <==> p == dto.password)
            && s.result.value == View(id, s.state[id]))
  {
    forall p
      ensures (Compare(p, Hash(dto.password, salt)) <==> BcryptInput(p) == BcryptInput(dto.password))
      ensures |Utf8(dto.password)| < BCRYPT_MAX_BYTES ==> (Compare(p, Hash(dto.password, salt)) <==> p == dto.password)
    {
      CompareAcceptsOnlyTheHashedSecret(dto.password, p, salt);
    }
  }

  /** Every write of the service keeps each row's email, or adds a row with
      an unused one, so the unique index holds after each. */
  lemma StepsKeepEmailsUnique(users: map<Id, User>, id: Id, dto: UpdateUserDto, role: Role, now: Time)
    requires UniqueUserEmails(users)
    ensures UniqueUserEmails(UpdateStep(users, id, dto).state)
    ensures UniqueUserEmails(UpdateRoleStep(users, id, role).state)
    ensures UniqueUserEmails(RemoveStep(users, id, now).state)
  {
    if LiveUser(users, id) {
      UniqueUserEmailsAfterUpdate(users, id, ApplyUpdate(users[id], dto));
      UniqueUserEmailsAfterUpdate(users, id, users[id].(role := role));
      UniqueUserEmailsAfterUpdate(users, id, users[id].(deletedAt := Some(now)));
    }
  }

  /** Every lookup and write refuses a missing or soft-deleted id with
      NotFound("User not found") and changes nothing. */
  lemma MissingOrDeletedIsNotFound(users: map<Id, User>, id: Id, dto: UpdateUserDto, role: Role, now: Time)
    requires !LiveUser(users, id)
    ensures FindOne(users, id) == Err(NotFound(USER_NOT_FOUND))
    ensures UpdateStep(users, id, dto) == Step(Err(NotFound(USER_NOT_FOUND)), users)
    ensures UpdateRoleStep(users, id, role) == Step(Err(NotFound(USER_NOT_FOUND)), users)
    ensures RemoveStep(users, id, now) == Step(Err(NotFound(USER_NOT_FOUND)), users)
  {
  }

  /** `update` writes only the fields the DTO carries; the email, password,
      role, sessions and lockout state are untouched. */
  lemma UpdateTouchesOnlyProfile(users: map<Id, User>, id: Id, dto: UpdateUserDto)
    requires LiveUser(users, id)
    ensures var s := UpdateStep(users, id, dto).state;
      s.Keys == users.Keys && (forall k :: k in users && k != id ==> s[k] == users[k])
      && (dto.firstName.Some? ==> s[id].firstName == dto.firstName.value)
      && (dto.firstName.None? ==> s[id].firstName == users[id].firstName)
      && (dto.lastName.Some? ==> s[id].lastName == dto.lastName.value)
      && (dto.lastName.None? ==> s[id].lastName == users[id].lastName)
      && (dto.isActive.Some? ==> s[id].isActive == dto.isActive.value)
      && (dto.isActive.None? ==> s[id].isActive == users[id].isActive)
      && s[id].(firstName := users[id].firstName, lastName := users[id].lastName, isActive := users[id].isActive) == users[id]
  {
  }

  /** `remove` only stamps `deletedAt` on the target: the row stays, and no
      other row changes. */
  lemma RemoveIsSoft(users: map<Id, User>, id: Id, now: Time)
    requires RemoveStep(users, id, now).result.Ok?
    ensures var s := RemoveStep(users, id, now).state;
      s.Keys == users.Keys && (forall k :: k in users && k != id ==> s[k] == users[k])
      && s[id] == users[id].(deletedAt := Some(now)) && users[id].Live() && !s[id].Live()
      && !LiveUser(s, id)
  {
  }

  /** `remove` never takes the number of live SUPER_ADMINs from one or more
      to none: it refuses the last one, and removing any other row leaves
      the count at least one. */
  lemma {:induction false} RemoveKeepsASuperAdmin(users: map<Id, User>, id: Id, now: Time)
    requires |SuperAdmins(users)| >= 1
    ensures |SuperAdmins(RemoveStep(users, id, now).state)| >= 1
  {
    var s := RemoveStep(users, id, now);
    if s.result.Ok? {
      var after := s.state;
      if users[id].role == SUPER_ADMIN {
        assert SuperAdmins(after) == SuperAdmins(users) - {id};
        assert id in SuperAdmins(users);
      } else {
        assert SuperAdmins(after) == SuperAdmins(users);
      }
    }
  }

  /** `remove` refuses a live SUPER_ADMIN exactly when it is the only one. */
  lemma {:induction false} LastSuperAdminForbidden(users: map<Id, User>, id: Id, now: Time)
    requires LiveUser(users, id) && users[id].role == SUPER_ADMIN
    ensures RemoveStep(users, id, now).result == Err(Forbidden(LAST_SUPER_ADMIN)) <==> SuperAdmins(users) == {id}
  {
    assert id in SuperAdmins(users);
    if |SuperAdmins(users)| <= 1 {
      forall k | k in SuperAdmins(users) ensures k == id {
        if k != id {
          assert {id, k} <= SuperAdmins(users);
          assert |{id, k}| == 2;
          SubsetCardinality({id, k}, SuperAdmins(users));
        }
      }
    }
  }

  lemma SubsetCardinality(a: set<Id>, b: set<Id>)
    requires a <= b
    ensures |a| <= |b|
  {
    assert b == a + (b - a);
  }

  /** `updateRole` has no such guard: it demotes the last live SUPER_ADMIN,
      leaving none. */
  lemma {:induction false} UpdateRoleCanDemoteLastSuperAdmin(users: map<Id, User>, id: Id, role: Role)
    requires SuperAdmins(users) == {id}
    requires role != SUPER_ADMIN
    ensures UpdateRoleStep(users, id, role).result.Ok?
    ensures SuperAdmins(UpdateRoleStep(users, id, role).state) == {}
  {
    assert id in SuperAdmins(users);
    var after := UpdateRoleStep(users, id, role).state;
    forall k | k in after && after[k].Live() ensures after[k].role != SUPER_ADMIN {
      if k != id {
        assert k !in SuperAdmins(users);
      }
    }
  }

  /** A soft-deleted user keeps the email (creation with it still
      conflicts) and can still log in: login looks the email up without the
      soft-delete filter. */
  lemma {:induction false} RemovedUserKeepsEmailAndLogin(users: map<Id, User>, id: Id, now: Time,
      dto: CreateUserDto, defaultRole: Role, newId: Id, salt: nat, cfg: JwtConfig, login: LoginDto, loginSalt: nat, later: Time)
    requires UniqueUserEmails(users)
    requires RemoveStep(users, id, now).result.Ok?
    requires newId !in users
    requires dto.email == users[id].email && (dto.role.Some? ==> ParseRole(dto.role.value).Some?)
    requires login.email == users[id].email && Compare(login.password, users[id].password)
    requires !Auth.IsLocked(users[id], later)
    ensures var s := RemoveStep(users, id, now).state;
      CreateStep(s, dto, defaultRole, newId, salt, later).result == Err(Conflict(USER_EXISTS))
      && UniqueUserEmails(s)
      && Auth.LoginStep(s, cfg, login, loginSalt, later).result.Ok?
  {
    var s := RemoveStep(users, id, now).state;
    UniqueUserEmailsAfterUpdate(users, id, users[id].(deletedAt := Some(now)));
    assert id in s && s[id].email == dto.email;
    assert Auth.FindByEmail(s, login.email) == Some(id);
  }
}
