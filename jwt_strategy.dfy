/** The bearer-token check that guards every authenticated route: the access
    token must verify (signature and expiry, `ignoreExpiration: false`) under
    the strategy's secret, and `validate` then requires the subject to have
    an active row. The strategy's fallback secret, used when `JWT_SECRET` is
    unset, differs from the one the auth service signs with; both the check
    as written and the check with the signing secret are stated. */
module JwtStrategy {
  import opened Common
  import opened Enums
  import opened Crypto
  import opened Entities
  import opened Dtos
  import opened Auth

  const STRATEGY_FALLBACK_SECRET := "default-secret-change-in-production"
  const NOT_FOUND_OR_INACTIVE := "User not found or inactive"
  /** The message of the 401 the framework sends when the token itself fails. */
  const UNAUTHORIZED := "Unauthorized"

  /** The row `validate` selects and attaches to the request. */
  datatype AuthenticatedUser = AuthenticatedUser(
    id: Id, email: string, firstName: string, lastName: string, role: Role, isActive: bool)

  /** `validate(payload)`: a lookup by `sub` (soft-deleted rows included)
      that refuses a missing or inactive row; it returns the selected fields,
      never the password or refresh hash, and reads the table only. */
  function Validate(users: map<Id, User>, claims: Claims): (r: Result<AuthenticatedUser>)
    ensures r.Ok? <==> claims.sub in users && users[claims.sub].isActive
    ensures r.Ok? ==> (var u := users[claims.sub];
      r.value == AuthenticatedUser(claims.sub, u.email, u.firstName, u.lastName, u.role, true))
    ensures r.Err? ==> r.error == Unauthorized(NOT_FOUND_OR_INACTIVE)
  {
    if claims.sub !in users || !users[claims.sub].isActive then Err(Unauthorized(NOT_FOUND_OR_INACTIVE))
    else
      var u := users[claims.sub];
      Ok(AuthenticatedUser(claims.sub, u.email, u.firstName, u.lastName, u.role, u.isActive))
  }

  /** `secretOrKey` as written: `JWT_SECRET || 'default-secret-change-in-production'`. */
  function StrategySecretAsWritten(cfg: JwtConfig): string {
    SecretOr(cfg.jwtSecret, STRATEGY_FALLBACK_SECRET)
  }

  /** The secret the strategy evidently means to use: the one access tokens
      are signed with. */
  function StrategySecret(cfg: JwtConfig): string {
    AccessSecret(cfg)
  }

  /** The guard as written: verification, then `validate`. */
  function AuthenticateAsWritten(users: map<Id, User>, cfg: JwtConfig, token: Jwt, now: Time): Result<AuthenticatedUser> {
    match Verify(token, StrategySecretAsWritten(cfg), now)
    case None => Err(Unauthorized(UNAUTHORIZED))
    case Some(claims) => Validate(users, claims)
  }

  /** The guard with the signing secret. */
  function Authenticate(users: map<Id, User>, cfg: JwtConfig, token: Jwt, now: Time): Result<AuthenticatedUser> {
    match Verify(token, StrategySecret(cfg), now)
    case None => Err(Unauthorized(UNAUTHORIZED))
    case Some(claims) => Validate(users, claims)
  }

  /** As written, with `JWT_SECRET` unset, no access token the auth service
      issues is ever accepted: it is signed with 'default-secret' and
      checked against 'default-secret-change-in-production'. */
  lemma UnsetSecretRejectsIssuedTokens(users: map<Id, User>, cfg: JwtConfig, id: Id, email: string, role: Role, issued: Time, now: Time)
    requires !Given(cfg.jwtSecret)
    ensures var access := GenerateTokens(cfg, id, email, role, issued).accessToken;
      AuthenticateAsWritten(users, cfg, access, now) == Err(Unauthorized(UNAUTHORIZED))
  {
  }

  /** With `JWT_SECRET` set the two secrets coincide, and so do the guards. */
  lemma AsWrittenAgreesWhenSecretSet(users: map<Id, User>, cfg: JwtConfig, token: Jwt, now: Time)
    requires Given(cfg.jwtSecret)
    ensures AuthenticateAsWritten(users, cfg, token, now) == Authenticate(users, cfg, token, now)
  {
  }

  /** With the signing secret, the guard accepts a token exactly when it
      verifies and its subject has an active row. */
  lemma AuthenticateIff(users: map<Id, User>, cfg: JwtConfig, token: Jwt, now: Time)
    ensures Authenticate(users, cfg, token, now).Ok? <==>
      (token.key == AccessSecret(cfg) && Seconds(now) < token.exp
       && token.claims.sub in users && users[token.claims.sub].isActive)
  {
  }

  /** An expired token is refused whoever it names (`ignoreExpiration: false`). */
  lemma ExpiredTokenRejected(users: map<Id, User>, cfg: JwtConfig, token: Jwt, now: Time)
    requires Seconds(now) >= token.exp
    ensures Authenticate(users, cfg, token, now) == Err(Unauthorized(UNAUTHORIZED))
    ensures AuthenticateAsWritten(users, cfg, token, now) == Err(Unauthorized(UNAUTHORIZED))
  {
  }

  /** A token that verifies is still refused when its subject's row is
      inactive or gone. */
  lemma InactiveOrMissingRejected(users: map<Id, User>, cfg: JwtConfig, token: Jwt, now: Time)
    requires Verify(token, StrategySecret(cfg), now).Some?
    requires token.claims.sub !in users || !users[token.claims.sub].isActive
    ensures Authenticate(users, cfg, token, now) == Err(Unauthorized(NOT_FOUND_OR_INACTIVE))
  {
  }

  /** The access token of a successful login authenticates its user until it
      expires, exactly when that user is active: login itself never looks
      at `isActive`, the guard does. */
  lemma {:induction false} LoginThenAuthenticate(users: map<Id, User>, cfg: JwtConfig, dto: LoginDto, salt: nat, issued: Time, now: Time)
    requires UniqueUserEmails(users)
    requires LoginStep(users, cfg, dto, salt, issued).result.Ok?
    requires Seconds(now) < Seconds(issued) + AccessTtl(cfg)
    ensures var s := LoginStep(users, cfg, dto, salt, issued);
      var id := FindByEmail(users, dto.email).value;
      Authenticate(s.state, cfg, s.result.value.accessToken, now).Ok? <==> users[id].isActive
  {
    var s := LoginStep(users, cfg, dto, salt, issued);
    var id := FindByEmail(users, dto.email).value;
    var u := users[id];
    var t := GenerateTokens(cfg, id, u.email, u.role, issued);
    assert s.result.value.accessToken == t.accessToken;
    assert Verify(t.accessToken, AccessSecret(cfg), now) == Some(Claims(id, u.email, u.role));
    assert id in s.state && s.state[id].isActive == u.isActive;
  }

  /** What the guard adds to login, for the access token a login has just
      issued: an inactive row is refused ("User not found or inactive"), so
      it never reaches `GET /auth/me`; a soft-deleted row that is still
      active is let through, and the profile read then finds it. */
  lemma {:induction false} GuardLooksAtActiveNotDeleted(users: map<Id, User>, cfg: JwtConfig, dto: LoginDto, salt: nat, issued: Time, now: Time)
    requires UniqueUserEmails(users)
    requires LoginStep(users, cfg, dto, salt, issued).result.Ok?
    requires Seconds(now) < Seconds(issued) + AccessTtl(cfg)
    ensures var s := LoginStep(users, cfg, dto, salt, issued);
      var id := FindByEmail(users, dto.email).value;
      var guard := Authenticate(s.state, cfg, s.result.value.accessToken, now);
      (!users[id].isActive ==> guard == Err(Unauthorized(NOT_FOUND_OR_INACTIVE)))
      && (users[id].isActive && !users[id].Live() ==>
            guard.Ok? && guard.value.id == id && GetCurrentUser(s.state, guard.value.id).Ok?)
  {
    var s := LoginStep(users, cfg, dto, salt, issued);
    var id := FindByEmail(users, dto.email).value;
    var u := users[id];
    var t := GenerateTokens(cfg, id, u.email, u.role, issued);
    assert s.result.value.accessToken == t.accessToken;
    assert Verify(t.accessToken, AccessSecret(cfg), now) == Some(Claims(id, u.email, u.role));
    assert id in s.state && s.state[id].isActive == u.isActive;
  }
}
