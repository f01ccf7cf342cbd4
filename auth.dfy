/** The credential state machine of the auth service: registration, login
    with its failed-attempt lockout, refresh-token rotation, logout and the
    current-user lookup. Each operation is stated once as a pure step over
    the users table (`LoginStep`, `RefreshStep`, ...) and once as a method of
    `AuthService` that updates the table in place the way the service does,
    proved to agree with the step. The clock, the bcrypt salt, the id the
    store assigns and the schema's default role are parameters. */
module Auth {
  import opened Common
  import opened Enums
  import opened Crypto
  import opened Encoding
  import opened Entities
  import opened Dtos

  // ---- constants and messages ----

  const MAX_FAILED_ATTEMPTS: nat := 5
  const LOCK_TIME_MINUTES: nat := 15
  const MS_PER_MINUTE: nat := 60000
  /** The lock length in milliseconds: `LOCK_TIME_MINUTES * 60000`. */
  const LOCK_MS: nat := LOCK_TIME_MINUTES * MS_PER_MINUTE
  /** `expiresIn` of the login response. */
  const EXPIRES_IN: int := 3600
  const TOKEN_TYPE := "Bearer"

  const INVALID_CREDENTIALS := "Invalid credentials"
  const INVALID_REFRESH_TOKEN := "Invalid refresh token"
  const USER_NOT_FOUND := "User not found"
  const LOGGED_OUT := "Logged out successfully"

  // ---- what the operations return ----

  /** The row `register` selects: id, email, names, role and creation time. */
  datatype RegisteredUser = RegisteredUser(id: Id, email: string, firstName: string, lastName: string, role: Role, createdAt: Time)

  /** The `user` object of the login response. */
  datatype UserSummary = UserSummary(id: Id, email: string, firstName: string, lastName: string, role: Role)

  datatype TokenPair = TokenPair(accessToken: Jwt, refreshToken: Jwt)

  datatype LoginResponse = LoginResponse(
    accessToken: Jwt, refreshToken: Jwt, expiresIn: int, tokenType: string, user: UserSummary)

  /** The row `getCurrentUser` selects (`updatedAt` is not modelled). */
  datatype CurrentUser = CurrentUser(
    id: Id, email: string, firstName: string, lastName: string, role: Role,
    isActive: bool, lastLoginAt: Option<Time>, createdAt: Time)

  // ---- lookups ----

  /** `findUnique({ where: { email } })`: the unique index makes the answer
      a function of the table. Soft-deleted rows are found too. */
  function FindByEmail(users: map<Id, User>, email: string): (r: Option<Id>)
    requires UniqueUserEmails(users)
    ensures r.Some? ==> r.value in users && users[r.value].email == email
    ensures r.None? ==> forall id :: id in users ==> users[id].email != email
  {
    if exists id :: id in users && users[id].email == email then
      var id :| id in users && users[id].email == email; Some(id)
    else None
  }

  // ---- the lockout policy ----

  /** `user.lockedUntil && user.lockedUntil > new Date()`. */
  predicate IsLocked(u: User, now: Time) {
    u.lockedUntil.Some? && u.lockedUntil.value > now
  }

  /** `Math.ceil((lockedUntil - now) / 60000)` while the lock holds: the
      whole minutes that cover what is left of it. */
  function MinutesRemaining(lockedUntil: Time, now: Time): (m: nat)
    requires lockedUntil > now
    ensures m >= 1
    ensures (m - 1) * MS_PER_MINUTE < lockedUntil - now <= m * MS_PER_MINUTE
  {
    CeilDiv(lockedUntil - now, MS_PER_MINUTE)
  }

  function LockedMessage(minutes: nat): string {
    "Account is locked. Try again in " + DecimalString(minutes) + " minutes"
  }

  /** The row after a wrong password: one more failed attempt, and a lock of
      `LOCK_MS` from now once the count reaches the threshold. */
  function AfterFailure(u: User, now: Time): User {
    var failed := u.failedAttempts + 1;
    u.(failedAttempts := failed,
       lockedUntil := if failed >= MAX_FAILED_ATTEMPTS then Some(now + LOCK_MS) else u.lockedUntil)
  }

  /** The row after a right password: counter reset, lock cleared, login time recorded. */
  function AfterSuccess(u: User, now: Time): User {
    u.(failedAttempts := 0, lockedUntil := None, lastLoginAt := Some(now))
  }

  /** What one login attempt on a known row does. */
  datatype Attempt = Refused(minutes: nat) | Rejected(after: User) | Accepted(after: User)

  function LoginAttempt(u: User, password: string, now: Time): Attempt {
    if IsLocked(u, now) then Refused(MinutesRemaining(u.lockedUntil.value, now))
    else if !Compare(password, u.password) then Rejected(AfterFailure(u, now))
    else Accepted(AfterSuccess(u, now))
  }

  // ---- tokens ----

  /** `generateTokens`: the same claims signed twice, with the access secret
      and lifetime and with the refresh secret and lifetime. Each token then
      verifies under its own secret, with those claims, until its lifetime
      has elapsed; when the secrets differ the access token never verifies as
      a refresh token. */
  function GenerateTokens(cfg: JwtConfig, id: Id, email: string, role: Role, now: Time): (t: TokenPair)
    ensures forall at :: (Verify(t.accessToken, AccessSecret(cfg), at) ==
      if Seconds(at) < Seconds(now) + AccessTtl(cfg) then Some(Claims(id, email, role)) else None)
    ensures forall at :: (Verify(t.refreshToken, RefreshSecret(cfg), at) ==
      if Seconds(at) < Seconds(now) + RefreshTtl(cfg) then Some(Claims(id, email, role)) else None)
    ensures AccessSecret(cfg) != RefreshSecret(cfg) ==>
      forall at :: Verify(t.accessToken, RefreshSecret(cfg), at).None?
  {
    var claims := Claims(id, email, role);
    TokenPair(Sign(claims, AccessSecret(cfg), AccessTtl(cfg), now),
              Sign(claims, RefreshSecret(cfg), RefreshTtl(cfg), now))
  }

  // ---- the operations as steps over the users table ----

  /** `register`: a conflict when any row, live or soft-deleted, has the
      email; otherwise one new row with the hashed password and the role
      the schema gives by default (the service sets none). */
  function RegisterStep(users: map<Id, User>, dto: RegisterDto, defaultRole: Role, id: Id, salt: nat, now: Time): Step<RegisteredUser, map<Id, User>>
  {
    if exists k :: k in users && users[k].email == dto.email then
      Step(Err(Conflict(USER_EXISTS)), users)
    else
      var u := NewUser(dto.email, Hash(dto.password, salt), dto.firstName, dto.lastName, defaultRole, now);
      Step(Ok(RegisteredUser(id, u.email, u.firstName, u.lastName, u.role, u.createdAt)), users[id := u])
  }

  /** `login`. */
  function LoginStep(users: map<Id, User>, cfg: JwtConfig, dto: LoginDto, salt: nat, now: Time): Step<LoginResponse, map<Id, User>>
    requires UniqueUserEmails(users)
  {
    match FindByEmail(users, dto.email)
    case None => Step(Err(Unauthorized(INVALID_CREDENTIALS)), users)
    case Some(id) =>
      var u := users[id];
      match LoginAttempt(u, dto.password, now)
      case Refused(m) => Step(Err(Unauthorized(LockedMessage(m))), users)
      case Rejected(after) => Step(Err(Unauthorized(INVALID_CREDENTIALS)), users[id := after])
      case Accepted(after) =>
        var t := GenerateTokens(cfg, id, u.email, u.role, now);
        var response := LoginResponse(t.accessToken, t.refreshToken, EXPIRES_IN, TOKEN_TYPE,
                                      UserSummary(id, u.email, u.firstName, u.lastName, u.role));
        Step(Ok(response), users[id := after.(refreshToken := Some(HashToken(t.refreshToken, salt)))])
  }

  /** `refreshTokens`, with the presented token checked against the stored
      digest by `check` (the service's own check is `Bcrypt`): every way of
      failing is the same error and changes nothing. */
  function RefreshStep(check: TokenCheck, users: map<Id, User>, cfg: JwtConfig, token: Jwt, salt: nat, now: Time): Step<TokenPair, map<Id, User>>
  {
    match Verify(token, RefreshSecret(cfg), now)
    case None => Step(Err(Unauthorized(INVALID_REFRESH_TOKEN)), users)
    case Some(claims) =>
      var id := claims.sub;
      if id !in users || users[id].refreshToken.None? || !TokenAccepts(check, token, users[id].refreshToken.value) then
        Step(Err(Unauthorized(INVALID_REFRESH_TOKEN)), users)
      else
        var u := users[id];
        var t := GenerateTokens(cfg, id, u.email, u.role, now);
        Step(Ok(t), users[id := u.(refreshToken := Some(HashToken(t.refreshToken, salt)))])
  }

  /** `logout`: the stored refresh hash is cleared; an id with no row makes
      the store's update fail. */
  function LogoutStep(users: map<Id, User>, id: Id): Step<string, map<Id, User>> {
    if id in users then Step(Ok(LOGGED_OUT), users[id := users[id].(refreshToken := None)])
    else Step(Err(StoreFailure(RECORD_NOT_FOUND)), users)
  }

  /** `getCurrentUser`: a lookup by id, live or not, active or not. */
  function GetCurrentUser(users: map<Id, User>, id: Id): (r: Result<CurrentUser>)
    ensures r.Ok? <==> id in users
    ensures r.Ok? ==> (r.value.id == id && r.value.email == users[id].email
      && r.value.firstName == users[id].firstName && r.value.lastName == users[id].lastName
      && r.value.role == users[id].role && r.value.isActive == users[id].isActive
      && r.value.lastLoginAt == users[id].lastLoginAt && r.value.createdAt == users[id].createdAt)
    ensures r.Err? ==> r.error == Unauthorized(USER_NOT_FOUND)
  {
    if id in users then
      var u := users[id];
      Ok(CurrentUser(id, u.email, u.firstName, u.lastName, u.role, u.isActive, u.lastLoginAt, u.createdAt))
    else Err(Unauthorized(USER_NOT_FOUND))
  }

  // ---- the service ----

  /** `AuthService` over the database's users table; `defaultRole` is the
      schema's default role. */
  class AuthService {
    const db: Database
    const cfg: JwtConfig
    const defaultRole: Role

    constructor (db: Database, cfg: JwtConfig, defaultRole: Role)
      ensures this.db == db && this.cfg == cfg && this.defaultRole == defaultRole
    {
      this.db := db;
      this.cfg := cfg;
      this.defaultRole := defaultRole;
    }

    /** `register`, with the id the store assigns and the bcrypt salt. */
    method Register(dto: RegisterDto, id: Id, salt: nat, now: Time) returns (r: Result<RegisteredUser>)
      requires db.Valid() && id !in db.users
      modifies db`users
      ensures db.Valid()
      ensures Step(r, db.users) == RegisterStep(old(db.users), dto, defaultRole, id, salt, now)
    {
      if exists k :: k in db.users && db.users[k].email == dto.email {
        return Err(Conflict(USER_EXISTS));
      }
      var hashed := Hash(dto.password, salt);
      var u := NewUser(dto.email, hashed, dto.firstName, dto.lastName, defaultRole, now);
      UniqueUserEmailsAfterInsert(db.users, id, u);
      db.users := db.users[id := u];
      r := Ok(RegisteredUser(id, u.email, u.firstName, u.lastName, u.role, u.createdAt));
    }

    /** `login`: the lock check, then either the failure update or the
      success update followed by the update that stores the new refresh
      hash. */
    method Login(dto: LoginDto, salt: nat, now: Time) returns (r: Result<LoginResponse>)
      requires db.Valid()
      modifies db`users
      ensures db.Valid()
      ensures Step(r, db.users) == LoginStep(old(db.users), cfg, dto, salt, now)
    {
      var found := FindByEmail(db.users, dto.email);
      if found.None? {
        return Err(Unauthorized(INVALID_CREDENTIALS));
      }
      var id := found.value;
      var user := db.users[id];
      if IsLocked(user, now) {
        var minutes := MinutesRemaining(user.lockedUntil.value, now);
        assert LoginAttempt(user, dto.password, now) == Refused(minutes);
        return Err(Unauthorized(LockedMessage(minutes)));
      }
      var isPasswordValid := Compare(dto.password, user.password);
      if !isPasswordValid {
        var failedAttempts := user.failedAttempts + 1;
        var updated := user.(failedAttempts := failedAttempts);
        if failedAttempts >= MAX_FAILED_ATTEMPTS {
          updated := updated.(lockedUntil := Some(now + LOCK_MS));
        }
        assert LoginAttempt(user, dto.password, now) == Rejected(updated);
        UniqueUserEmailsAfterUpdate(db.users, id, updated);
        db.users := db.users[id := updated];
        return Err(Unauthorized(INVALID_CREDENTIALS));
      }
      UniqueUserEmailsAfterUpdate(db.users, id, AfterSuccess(user, now));
      db.users := db.users[id := db.users[id].(failedAttempts := 0, lockedUntil := None, lastLoginAt := Some(now))];
      var tokens := GenerateTokens(cfg, id, user.email, user.role, now);
      var hashedRefreshToken := HashToken(tokens.refreshToken, salt);
      UniqueUserEmailsAfterUpdate(db.users, id, db.users[id].(refreshToken := Some(hashedRefreshToken)));
      db.users := db.users[id := db.users[id].(refreshToken := Some(hashedRefreshToken))];
      assert LoginAttempt(user, dto.password, now) == Accepted(AfterSuccess(user, now));
      assert db.users == old(db.users)[id := AfterSuccess(user, now).(refreshToken := Some(hashedRefreshToken))];
      r := Ok(LoginResponse(tokens.accessToken, tokens.refreshToken, EXPIRES_IN, TOKEN_TYPE,
                            UserSummary(id, user.email, user.firstName, user.lastName, user.role)));
    }

    /** `refreshTokens`, which checks the presented token with `bcrypt.compare`. */
    method RefreshTokens(token: Jwt, salt: nat, now: Time) returns (r: Result<TokenPair>)
      requires db.Valid()
      modifies db`users
      ensures db.Valid()
      ensures Step(r, db.users) == RefreshStep(Bcrypt, old(db.users), cfg, token, salt, now)
    {
      var payload := Verify(token, RefreshSecret(cfg), now);
      if payload.None? {
        return Err(Unauthorized(INVALID_REFRESH_TOKEN));
      }
      var id := payload.value.sub;
      if id !in db.users || db.users[id].refreshToken.None? {
        return Err(Unauthorized(INVALID_REFRESH_TOKEN));
      }
      var user := db.users[id];
      var isRefreshTokenValid := TokenAccepts(Bcrypt, token, user.refreshToken.value);
      if !isRefreshTokenValid {
        return Err(Unauthorized(INVALID_REFRESH_TOKEN));
      }
      var tokens := GenerateTokens(cfg, id, user.email, user.role, now);
      var hashedRefreshToken := HashToken(tokens.refreshToken, salt);
      UniqueUserEmailsAfterUpdate(db.users, id, user.(refreshToken := Some(hashedRefreshToken)));
      db.users := db.users[id := user.(refreshToken := Some(hashedRefreshToken))];
      r := Ok(tokens);
    }

    /** `logout`. */
    method Logout(id: Id) returns (r: Result<string>)
      requires db.Valid()
      modifies db`users
      ensures db.Valid()
      ensures Step(r, db.users) == LogoutStep(old(db.users), id)
    {
      if id !in db.users {
        return Err(StoreFailure(RECORD_NOT_FOUND));
      }
      UniqueUserEmailsAfterUpdate(db.users, id, db.users[id].(refreshToken := None));
      db.users := db.users[id := db.users[id].(refreshToken := None)];
      r := Ok(LOGGED_OUT);
    }
  }

  // ---- the lockout policy, proved ----

  /** While the lock holds, the attempt is refused whatever the password,
      the row is left as it is, and the reported minutes are at least one
      and cover exactly what is left of the lock. */
  lemma LockedRefusesWhateverThePassword(users: map<Id, User>, cfg: JwtConfig, dto: LoginDto, salt: nat, now: Time)
    requires UniqueUserEmails(users)
    requires FindByEmail(users, dto.email).Some?
    requires IsLocked(users[FindByEmail(users, dto.email).value], now)
    ensures var u := users[FindByEmail(users, dto.email).value];
      var m := MinutesRemaining(u.lockedUntil.value, now);
      LoginStep(users, cfg, dto, salt, now) == Step(Err(Unauthorized(LockedMessage(m))), users)
      && m >= 1 && (m - 1) * MS_PER_MINUTE < u.lockedUntil.value - now <= m * MS_PER_MINUTE
  {
  }

  /** A wrong password on an unlocked row adds one failed attempt, locks the
      row for the next `LOCK_MS` milliseconds exactly when the count reaches
      five, leaves the lock untouched otherwise, changes nothing else and
      reports "Invalid credentials". */
  lemma {:induction false} WrongPasswordCounts(u: User, password: string, now: Time)
    requires !IsLocked(u, now) && !Compare(password, u.password)
    ensures LoginAttempt(u, password, now).Rejected?
    ensures var after := LoginAttempt(u, password, now).after;
      after.failedAttempts == u.failedAttempts + 1
      && (u.failedAttempts + 1 >= MAX_FAILED_ATTEMPTS ==>
            forall t :: IsLocked(after, t) <==> t < now + LOCK_MS)
      && (u.failedAttempts + 1 < MAX_FAILED_ATTEMPTS ==> after.lockedUntil == u.lockedUntil)
      && after.(failedAttempts := u.failedAttempts, lockedUntil := u.lockedUntil) == u
  {
  }

  /** The fifth wrong password in a row locks the account at once: the very
      next attempt, with any password, is refused for fifteen minutes. */
  lemma {:induction false} FifthStrikeLocks(u: User, wrong: string, any: string, now: Time)
    requires !IsLocked(u, now) && !Compare(wrong, u.password)
    requires u.failedAttempts == MAX_FAILED_ATTEMPTS - 1
    ensures LoginAttempt(LoginAttempt(u, wrong, now).after, any, now) == Refused(LOCK_TIME_MINUTES)
  {
    var after := LoginAttempt(u, wrong, now).after;
    assert after.lockedUntil == Some(now + LOCK_MS);
    CeilDivUnique(LOCK_MS, MS_PER_MINUTE, LOCK_TIME_MINUTES);
  }

  /** A lock set by a failure is never reported as longer than fifteen minutes. */
  lemma {:induction false} LockedMinutesAtMostFifteen(u: User, password: string, failedAt: Time, now: Time)
    requires !IsLocked(u, failedAt) && !Compare(password, u.password)
    requires u.failedAttempts + 1 >= MAX_FAILED_ATTEMPTS
    requires failedAt <= now
    ensures var after := LoginAttempt(u, password, failedAt).after;
      LoginAttempt(after, password, now).Refused? ==> 1 <= LoginAttempt(after, password, now).minutes <= LOCK_TIME_MINUTES
  {
    var after := LoginAttempt(u, password, failedAt).after;
    if IsLocked(after, now) {
      var m := MinutesRemaining(after.lockedUntil.value, now);
      if m > LOCK_TIME_MINUTES {
        MulMonotone(LOCK_TIME_MINUTES, m - 1, MS_PER_MINUTE);
        assert false;
      }
    }
  }

  /** Repeated wrong passwords at the given instants, each on the row the
      previous one left. */
  function FailAll(u: User, times: seq<Time>): User
    decreases |times|
  {
    if times == [] then u else FailAll(AfterFailure(u, times[0]), times[1..])
  }

  /** The counter counts every failure, the lock is left alone below the
      threshold, and from the threshold on it runs from the last failure. */
  lemma {:induction false} FailuresAccumulate(u: User, times: seq<Time>)
    ensures FailAll(u, times).failedAttempts == u.failedAttempts + |times|
    ensures u.failedAttempts + |times| < MAX_FAILED_ATTEMPTS ==> FailAll(u, times).lockedUntil == u.lockedUntil
    ensures |times| > 0 && u.failedAttempts + |times| >= MAX_FAILED_ATTEMPTS ==>
      FailAll(u, times).lockedUntil == Some(times[|times| - 1] + LOCK_MS)
    decreases |times|
  {
    if times != [] {
      var v := AfterFailure(u, times[0]);
      FailuresAccumulate(v, times[1..]);
      if |times| == 1 {
        assert times[1..] == [];
      } else {
        assert times[1..][|times[1..]| - 1] == times[|times| - 1];
      }
    }
  }

  /** Five wrong passwords on a fresh row, none of them refused (no lock is
      set before the fifth), lock it for fifteen minutes from the fifth. */
  lemma {:induction false} FiveStrikes(u: User, times: seq<Time>)
    requires u.failedAttempts == 0 && u.lockedUntil.None?
    requires |times| == MAX_FAILED_ATTEMPTS
    ensures forall k :: 0 <= k < |times| ==> !IsLocked(FailAll(u, times[..k]), times[k])
    ensures FailAll(u, times).lockedUntil == Some(times[|times| - 1] + LOCK_MS)
  {
    forall k | 0 <= k < |times| ensures !IsLocked(FailAll(u, times[..k]), times[k]) {
      FailuresAccumulate(u, times[..k]);
    }
    FailuresAccumulate(u, times);
  }

  /** Time never clears an expired lock: the counter is still at the
      threshold, so the next wrong password locks the row again at once. */
  lemma {:induction false} RelockAfterExpiry(u: User, password: string, now: Time)
    requires u.failedAttempts >= MAX_FAILED_ATTEMPTS - 1
    requires !IsLocked(u, now) && !Compare(password, u.password)
    ensures IsLocked(LoginAttempt(u, password, now).after, now)
    ensures LoginAttempt(u, password, now).after.lockedUntil == Some(now + LOCK_MS)
  {
  }

  /** Only a successful login resets the counter and clears the lock: a
      refused attempt changes nothing, a rejected one raises the counter. */
  lemma OnlySuccessClearsLock(u: User, password: string, now: Time)
    ensures match LoginAttempt(u, password, now)
      case Refused(_) => IsLocked(u, now)
      case Rejected(after) => after.failedAttempts > u.failedAttempts && !Compare(password, u.password)
      case Accepted(after) => after.failedAttempts == 0 && after.lockedUntil.None? && Compare(password, u.password)
  {
  }

  // ---- login, proved ----

  /** An unknown email and a wrong password are indistinguishable to the
      caller: both raise Unauthorized("Invalid credentials"). */
  lemma UnknownEmailLooksLikeWrongPassword(users: map<Id, User>, cfg: JwtConfig, unknown: LoginDto, wrong: LoginDto, salt: nat, now: Time)
    requires UniqueUserEmails(users)
    requires forall id :: id in users ==> users[id].email != unknown.email
    requires FindByEmail(users, wrong.email).Some?
    requires var u := users[FindByEmail(users, wrong.email).value];
      !IsLocked(u, now) && !Compare(wrong.password, u.password)
    ensures LoginStep(users, cfg, unknown, salt, now).result == LoginStep(users, cfg, wrong, salt, now).result
    ensures LoginStep(users, cfg, unknown, salt, now).result == Err(Unauthorized(INVALID_CREDENTIALS))
    ensures LoginStep(users, cfg, unknown, salt, now).state == users
  {
  }

  /** A successful login: the response carries fresh tokens for the row's
      id, email and role, `expiresIn` 3600 and type "Bearer"; the row's
      counter, lock and login time are reset and it stores the digest of the
      returned refresh token; no other row changes. Checked whole, that
      digest accepts the returned token and only it; checked by bcrypt, it
      accepts every token whose first 72 bytes are the returned token's,
      which is every token with the same claims. Neither `isActive` nor
      `deletedAt` is consulted. */
  lemma LoginSucceeds(users: map<Id, User>, cfg: JwtConfig, dto: LoginDto, salt: nat, now: Time)
    requires UniqueUserEmails(users)
    requires FindByEmail(users, dto.email).Some?
    requires var u := users[FindByEmail(users, dto.email).value];
      !IsLocked(u, now) && Compare(dto.password, u.password)
    ensures var id := FindByEmail(users, dto.email).value;
      var u := users[id];
      var s := LoginStep(users, cfg, dto, salt, now);
      s.result.Ok?
      && s.result.value.expiresIn == 3600 && s.result.value.tokenType == "Bearer"
      && s.result.value.user == UserSummary(id, u.email, u.firstName, u.lastName, u.role)
      && s.result.value.refreshToken.claims == Claims(id, u.email, u.role)
      && s.result.value.accessToken.claims == Claims(id, u.email, u.role)
      && s.state.Keys == users.Keys
      && (forall k :: k in users && k != id ==> s.state[k] == users[k])
      && s.state[id].failedAttempts == 0 && s.state[id].lockedUntil.None?
      && s.state[id].lastLoginAt == Some(now)
      && s.state[id].refreshToken == Some(HashToken(s.result.value.refreshToken, salt))
      && (forall tok :: TokenAccepts(WholeToken, tok, s.state[id].refreshToken.value) <==> tok == s.result.value.refreshToken)
      && (forall tok :: TokenAccepts(Bcrypt, tok, s.state[id].refreshToken.value) <==>
                          TokenInput(tok) == TokenInput(s.result.value.refreshToken))
      && (forall tok: Jwt :: tok.claims == s.result.value.refreshToken.claims ==>
                          TokenAccepts(Bcrypt, tok, s.state[id].refreshToken.value))
      && s.state[id].(failedAttempts := u.failedAttempts, lockedUntil := u.lockedUntil,
                      lastLoginAt := u.lastLoginAt, refreshToken := u.refreshToken) == u
  {
    var id := FindByEmail(users, dto.email).value;
    var t := LoginStep(users, cfg, dto, salt, now).result.value.refreshToken;
    forall tok: Jwt | tok.claims == t.claims
      ensures TokenAccepts(Bcrypt, tok, HashToken(t, salt))
    {
      TokenAcceptsIff(t, tok, salt);
    }
  }

  /** Every login keeps each row's email, so the unique index still holds. */
  lemma LoginKeepsEmailsUnique(users: map<Id, User>, cfg: JwtConfig, dto: LoginDto, salt: nat, now: Time)
    requires UniqueUserEmails(users)
    ensures UniqueUserEmails(LoginStep(users, cfg, dto, salt, now).state)
    ensures LoginStep(users, cfg, dto, salt, now).state.Keys == users.Keys
  {
    var found := FindByEmail(users, dto.email);
    if found.Some? {
      var id := found.value;
      var s := LoginStep(users, cfg, dto, salt, now).state;
      assert forall k :: k in s ==> k in users && s[k].email == users[k].email;
    }
  }

  // ---- register, proved ----

  /** Registration conflicts exactly when some row, soft-deleted or not,
      has the email; otherwise it adds exactly one row, under the new id,
      with the default role and the digest of the registered password. That
      digest accepts exactly the passwords whose first 72 UTF-8 bytes are
      the registered password's: a password shorter than 72 bytes, and no
      other. */
  lemma RegisterConflictOrInsert(users: map<Id, User>, dto: RegisterDto, defaultRole: Role, id: Id, salt: nat, now: Time)
    requires id !in users
    ensures var s := RegisterStep(users, dto, defaultRole, id, salt, now);
      (s.result == Err(Conflict(USER_EXISTS)) <==> exists k :: k in users && users[k].email == dto.email)
      && (s.result.Err? ==> s.state == users)
      && (s.result.Ok? ==>
            s.state.Keys == users.Keys + {id}
            && (forall k :: k in users ==> s.state[k] == users[k])
            && s.state[id].email == dto.email && s.state[id].role == defaultRole
            && s.state[id].password == Hash(dto.password, salt)
            && (forall p :: Compare(p, s.state[id].password) <==> BcryptInput(p) == BcryptInput(dto.password))
            && (|Utf8(dto.password)| < BCRYPT_MAX_BYTES ==>
                  forall p :: Compare(p, s.state[id].password) <==> p == dto.password)
            && s.result.value == RegisteredUser(id, dto.email, dto.firstName, dto.lastName, defaultRole, now))
  {
    forall p
      ensures (Compare(p, Hash(dto.password, salt)) <==> BcryptInput(p) == BcryptInput(dto.password))
      ensures |Utf8(dto.password)| < BCRYPT_MAX_BYTES ==> (Compare(p, Hash(dto.password, salt)) <==> p == dto.password)
    {
      CompareAcceptsOnlyTheHashedSecret(dto.password, p, salt);
    }
  }

  // ---- refresh and logout, proved ----

  /** Under either check, a refresh succeeds exactly when the token
      verifies under the refresh secret, its subject has a row, the row
      holds a digest, and the check accepts the token against it; every
      failure is Unauthorized("Invalid refresh token") and changes nothing;
      a success stores the digest of the new refresh token, which carries
      the row's current id, email and role, and changes no other row. */
  lemma RefreshSucceedsIff(check: TokenCheck, users: map<Id, User>, cfg: JwtConfig, token: Jwt, salt: nat, now: Time)
    ensures var s := RefreshStep(check, users, cfg, token, salt, now);
      var v := Verify(token, RefreshSecret(cfg), now);
      (s.result.Ok? <==>
         v.Some? && v.value.sub in users && users[v.value.sub].refreshToken.Some?
         && TokenAccepts(check, token, users[v.value.sub].refreshToken.value))
      && (s.result.Err? ==> s.result.error == Unauthorized(INVALID_REFRESH_TOKEN) && s.state == users)
      && (s.result.Ok? ==>
            var id := token.claims.sub;
            s.result.value.refreshToken.claims == Claims(id, users[id].email, users[id].role)
            && s.state == users[id := users[id].(refreshToken := Some(HashToken(s.result.value.refreshToken, salt)))])
  {
  }

  /** Login followed by a refresh with the returned token, before that
      token expires, succeeds under either check. */
  lemma {:induction false} LoginThenRefresh(check: TokenCheck, users: map<Id, User>, cfg: JwtConfig, dto: LoginDto, salt1: nat, t1: Time, salt2: nat, t2: Time)
    requires UniqueUserEmails(users)
    requires LoginStep(users, cfg, dto, salt1, t1).result.Ok?
    requires Seconds(t2) < Seconds(t1) + RefreshTtl(cfg)
    ensures var l := LoginStep(users, cfg, dto, salt1, t1);
      RefreshStep(check, l.state, cfg, l.result.value.refreshToken, salt2, t2).result.Ok?
  {
    var l := LoginStep(users, cfg, dto, salt1, t1);
    var id := FindByEmail(users, dto.email).value;
    var u := users[id];
    var t := GenerateTokens(cfg, id, u.email, u.role, t1);
    assert l.result.value.refreshToken == t.refreshToken;
    assert Verify(t.refreshToken, RefreshSecret(cfg), t2) == Some(Claims(id, u.email, u.role));
    TokenAcceptsIff(t.refreshToken, t.refreshToken, salt1);
  }

  /** Rotation as it is meant: when the presented token is checked whole,
      after a successful refresh the token that was presented no longer
      refreshes, unless the new token is the same token (issued in the same
      second for the same claims). */
  lemma {:induction false} RefreshRotatesOut(users: map<Id, User>, cfg: JwtConfig, token: Jwt, salt: nat, now: Time, salt2: nat, later: Time)
    requires RefreshStep(WholeToken, users, cfg, token, salt, now).result.Ok?
    requires RefreshStep(WholeToken, users, cfg, token, salt, now).result.value.refreshToken != token
    ensures var s := RefreshStep(WholeToken, users, cfg, token, salt, now).state;
      RefreshStep(WholeToken, s, cfg, token, salt2, later).result == Err(Unauthorized(INVALID_REFRESH_TOKEN))
  {
    var id := Verify(token, RefreshSecret(cfg), now).value.sub;
    var s := RefreshStep(WholeToken, users, cfg, token, salt, now).state;
    var t := RefreshStep(WholeToken, users, cfg, token, salt, now).result.value.refreshToken;
    assert s[id].refreshToken == Some(HashToken(t, salt));
    TokenAcceptsIff(t, token, salt);
  }

  /** Rotation as the service does it: bcrypt reads only the first 72 bytes
      of the presented token, and those bytes hold the token's header and
      the start of its payload, which is the same for every token issued to
      the same claims, or for a subject of 19 characters or more to the same
      subject. So a token that has been rotated out still refreshes while it
      has not expired, and keeps doing so after every later rotation. */
  lemma {:induction false} RotatedOutTokenStillRefreshes(users: map<Id, User>, cfg: JwtConfig, token: Jwt, salt: nat, now: Time, salt2: nat, later: Time)
    requires RefreshStep(Bcrypt, users, cfg, token, salt, now).result.Ok?
    requires Seconds(later) < token.exp
    requires |token.claims.sub| >= 19
      || (token.claims.sub in users && token.claims.email == users[token.claims.sub].email
          && token.claims.role == users[token.claims.sub].role)
    ensures var s := RefreshStep(Bcrypt, users, cfg, token, salt, now).state;
      RefreshStep(Bcrypt, s, cfg, token, salt2, later).result.Ok?
  {
    var id := token.claims.sub;
    var s := RefreshStep(Bcrypt, users, cfg, token, salt, now).state;
    var t := RefreshStep(Bcrypt, users, cfg, token, salt, now).result.value.refreshToken;
    assert t.claims == Claims(id, users[id].email, users[id].role);
    assert s[id].refreshToken == Some(HashToken(t, salt));
    assert Verify(token, RefreshSecret(cfg), later) == Some(token.claims);
    TokenAcceptsIff(t, token, salt);
  }

  /** The caveat of rotation: refreshing in the second the presented token
      was issued, for unchanged claims, issues the very same token, so the
      presented token stays valid. */
  lemma {:induction false} SameSecondRefreshReissues(check: TokenCheck, users: map<Id, User>, cfg: JwtConfig, token: Jwt, salt: nat, now: Time)
    requires RefreshStep(check, users, cfg, token, salt, now).result.Ok?
    requires token.iat == Seconds(now) && token.exp == Seconds(now) + RefreshTtl(cfg)
    requires var u := users[token.claims.sub]; token.claims == Claims(token.claims.sub, u.email, u.role)
    ensures RefreshStep(check, users, cfg, token, salt, now).result.value.refreshToken == token
    ensures var s := RefreshStep(check, users, cfg, token, salt, now).state;
      RefreshStep(check, s, cfg, token, salt, now).result.Ok?
  {
    TokenAcceptsIff(token, token, salt);
  }

  /** After logout no refresh token of that user works, whatever it is, and
      a second logout changes nothing. */
  lemma LogoutRevokes(check: TokenCheck, users: map<Id, User>, cfg: JwtConfig, id: Id, token: Jwt, salt: nat, now: Time)
    requires id in users
    requires token.claims.sub == id
    ensures var s := LogoutStep(users, id).state;
      RefreshStep(check, s, cfg, token, salt, now).result == Err(Unauthorized(INVALID_REFRESH_TOKEN))
    ensures LogoutStep(LogoutStep(users, id).state, id) == LogoutStep(users, id)
  {
    var s := LogoutStep(users, id).state;
    assert s[id := s[id].(refreshToken := None)] == s;
  }

  /** An access token is not a refresh token: when the two secrets differ,
      presenting an access token to the refresh endpoint fails. */
  lemma AccessTokenIsNotARefreshToken(check: TokenCheck, users: map<Id, User>, cfg: JwtConfig, id: Id, email: string, role: Role, issued: Time, salt: nat, now: Time)
    requires AccessSecret(cfg) != RefreshSecret(cfg)
    ensures var access := GenerateTokens(cfg, id, email, role, issued).accessToken;
      RefreshStep(check, users, cfg, access, salt, now).result == Err(Unauthorized(INVALID_REFRESH_TOKEN))
  {
  }

  /** Neither login nor the current-user lookup looks at `isActive` or
      `deletedAt`: an inactive, soft-deleted row with the right password
      logs in and receives tokens, and the lookup by id still finds it. (The
      route that calls the lookup sits behind the token guard, which refuses
      an inactive row: see `JwtStrategy.GuardLooksAtActiveNotDeleted`.) */
  lemma InactiveAndDeletedStillLogIn(users: map<Id, User>, cfg: JwtConfig, dto: LoginDto, salt: nat, now: Time)
    requires UniqueUserEmails(users)
    requires FindByEmail(users, dto.email).Some?
    requires var u := users[FindByEmail(users, dto.email).value];
      !u.isActive && !u.Live() && !IsLocked(u, now) && Compare(dto.password, u.password)
    ensures LoginStep(users, cfg, dto, salt, now).result.Ok?
    ensures GetCurrentUser(users, FindByEmail(users, dto.email).value).Ok?
  {
  }
}
