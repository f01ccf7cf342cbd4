# CRM API core in Dafny

A model of the core of a NestJS + Prisma CRM back end. It covers:

- authentication: registration; login with a lock-out after five failed
  attempts; refresh-token rotation; logout; the JWT access-token check;
- the users service and controller, with their role and ownership rules;
- the contacts, companies, deals and activities services: soft delete,
  reference checks, paginated listings, the deal pipeline summary, and
  upcoming/overdue activities;
- the request validation rules of the DTOs;
- the global exception filter and the response-envelope interceptor;
- the audit-log interceptor.

The store is a single `Entities.Database` object whose tables are maps from
id to row. Each service is a class holding that database. Its methods change
only their own table: the deals service, for example, may write `db.deals`
and nothing else.

Each method is proved equal to a pure step function
(`Step(result, newTable)`) of the old table. The properties are lemmas about
those step functions. Reads (`FindAll`, `FindOne`, sub-listings) are
functions with contracts.

Some inputs stand in for things the model does not compute:

- clock readings (`now`, `startOfToday`), hashing salts and new row ids are
  parameters, and so are the schema's defaults (a new user's role, a new
  contact's status, a new deal's stage and probability);
- the order a Prisma `orderBy` returns is a parameter `ordered`. It is
  constrained by `Pagination.Lists` to list exactly the rows the `where`
  filter selects, each once.

Errors are values of `Common.Error`. `Conflict`, `Unauthorized`,
`Forbidden` and `NotFound` are the framework's HTTP exceptions.
`StoreFailure` is an error raised by the store itself, such as a unique-index
violation.

Behaviours of the code that the model keeps and proves:

- A soft-deleted contact's email still blocks a new contact. The service's
  conflict check passes, and the store's unique index then fails with a 500
  (`Contacts.DeletedEmailStillTaken`).
- `updateRole` can demote the last SUPER_ADMIN, although `remove` refuses to
  delete them (`Users.UpdateRoleCanDemoteLastSuperAdmin`).
- Only `updateStage` stamps `actualCloseDate`. A deal created or updated
  into a closed stage has none (`Deals.CreateOutcomes`,
  `Deals.OnlyUpdateStageStampsCloseDate`).
- Login looks at neither `isActive` nor `deletedAt`: an inactive or
  soft-deleted user with the right password gets tokens
  (`Auth.InactiveAndDeletedStillLogIn`). The JWT guard in front of every
  other route, `GET /auth/me` included, refuses an inactive user's access
  token but lets an active soft-deleted user through
  (`JwtStrategy.GuardLooksAtActiveNotDeleted`).
- bcrypt reads only the first 72 bytes of what it hashes, and every refresh
  token of a user starts with the same 72 bytes. So a refresh token that
  rotation has replaced still refreshes until it expires
  (`Auth.RotatedOutTokenStillRefreshes`; see "## Findings").
- The error `code` of a service's HTTP error is the exception's reason
  phrase ("Not Found"), not the filter's own table ("NOT_FOUND")
  (`ExceptionFilter.ServiceErrorResponse`).
- A POST or PATCH whose handler returns nothing is not audited
  (`AuditLog.EmptyResponseNotAudited`).

## Model

| member | source | states |
|---|---|---|
| Common.CeilDiv | src/users/users.service.ts:60 | `Math.ceil(total / limit)` is the least q with total <= q * limit |
| Common.CeilDivUnique | src/users/users.service.ts:60 | any q bracketing n that way is the ceiling |
| Common.DecimalRoundTrip | src/auth/auth.service.ts:76-78 | the minutes printed in the lock message are digits that read back as the number |
| Enums.ParseRole | src/users/dto/create-user.dto.ts:30-33 | a role string accepted by `@IsEnum(Role)` is the name of that role |
| Enums.RoleNameRoundTrip | src/users/dto/create-user.dto.ts:30-33 | every role's name parses back to the role |
| Encoding.Utf8Char | src/auth/auth.service.ts:82 | the UTF-8 bytes bcrypt reads for one character: 1 to 4 bytes, the lead byte giving the count, the rest continuation bytes, decoding back to the character |
| Encoding.Utf8Append | src/auth/auth.service.ts:82 | the UTF-8 encoding of a concatenation is the concatenation of the encodings |
| Encoding.Utf8CharPrefix | src/auth/auth.service.ts:82 | one character's encoding is never a prefix-confusion of another's: equal encodings followed by anything are the same character |
| Encoding.Utf8Injective | src/auth/auth.service.ts:82 | different strings have different UTF-8 encodings |
| Encoding.Base64UrlAppend | src/auth/auth.service.ts:219-226 | base64url encodes whole groups of three bytes on their own, four characters each, whatever follows |
| Crypto.BcryptInput | src/auth/auth.service.ts:82 | bcrypt reads the first 72 UTF-8 bytes of its input, or all of them when there are fewer |
| Crypto.CompareAcceptsOnlyTheHashedSecret | src/auth/auth.service.ts:82 | bcrypt compare accepts a candidate exactly when its first 72 UTF-8 bytes are the secret's, whatever the salt: a secret under 72 bytes accepts only itself, a longer one accepts itself with anything appended |
| Crypto.SignThenVerify | src/auth/auth.service.ts:144-146 | a signed token verifies under its key until it expires and never under another key |
| Crypto.SecretOr | src/auth/auth.service.ts:220 | `config || fallback` yields the configured value or the fallback, and is non-empty when the fallback is |
| Crypto.DefaultKeysDiffer | src/auth/auth.service.ts:220-224 | with neither secret configured, access and refresh keys differ |
| Crypto.ClaimsJson | src/auth/auth.service.ts:216 | the payload `{ sub, email, role }` as JSON, at least 30 characters |
| Crypto.Base64UrlLength | src/auth/auth.service.ts:219-226 | base64url writes at least four characters per whole group of three bytes |
| Crypto.BcryptIgnoresWhatFollows | src/auth/auth.service.ts:156-159 | whatever is appended to a string of 72 bytes or more, bcrypt reads the same bytes |
| Crypto.BcryptNeverReadsTheSignature | src/auth/auth.service.ts:119 | the signing input of a token is longer than 72 bytes, so bcrypt reads the same bytes of the token with any signature |
| Crypto.FirstPayloadBytesDecide | src/auth/auth.service.ts:216-226 | the header and the first 27 payload bytes fill the 72 bytes bcrypt reads |
| Crypto.CommonPayloadPrefix | src/auth/auth.service.ts:216-226 | two payloads that share their first 27 bytes give tokens that bcrypt cannot tell apart |
| Crypto.SameClaimsSameBcryptInput | src/auth/auth.service.ts:216-226 | tokens for the same claims look the same to bcrypt, whatever their iat, exp or key |
| Crypto.SubjectFirst | src/auth/auth.service.ts:216 | the payload opens with `{"sub":"` and the escaped subject |
| Crypto.SameSubjectSameBcryptInput | src/auth/auth.service.ts:216-226 | tokens for the same subject of 19 or more characters look the same to bcrypt, whatever the other claims |
| Crypto.TokenAcceptsIff | src/auth/auth.service.ts:156-159 | both checks accept the hashed token; the whole-token check accepts nothing else; the bcrypt check accepts exactly the tokens with the same first 72 bytes, among them every token with the same claims, or the same subject of 19 characters or more |
| Entities.NewUser | src/auth/auth.service.ts:40-46 | a new user is active, live, unlocked, with no failures, no refresh token and no last login |
| Entities.UniqueUserEmailsAfterUpdate | src/auth/auth.service.ts:28-34 | rewriting a user without changing the email keeps emails unique |
| Entities.UniqueUserEmailsAfterInsert | src/auth/auth.service.ts:28-34 | inserting a user whose email nobody has keeps emails unique |
| Rules.JsLengthBounds | src/auth/dto/auth.dto.ts:15 | the length `@MinLength`/`@MaxLength` measure (code points, not counting the variation selectors U+FE0E and U+FE0F) is at most the number of characters, equal to it without selectors, and zero exactly for a string of selectors |
| Rules.JsLengthAppend | src/auth/dto/auth.dto.ts:15 | that length of a concatenation is the sum of the lengths |
| Rules.ScanFirstLineCorrect | src/auth/dto/auth.dto.ts:16 | a `(?=.*[k])` lookahead succeeds iff a character of class k occurs before the first line terminator |
| Rules.PasswordPatternNotEndAnchored | src/auth/dto/auth.dto.ts:16 | the password pattern is not end-anchored: anything appended to a matching password still matches |
| Rules.PasswordClassAfterLineBreakIgnored | src/auth/dto/auth.dto.ts:16 | a required character class present only after a line break does not satisfy the lookahead |
| Rules.PhoneShape | src/contacts/dto/create-contact.dto.ts:29-32 | a phone matches iff it is an optional leading `+` then one or more digits, spaces, hyphens or parentheses; no letters, no inner `+`, not empty |
| Dtos.PasswordRulesAgree | src/users/dto/create-user.dto.ts:10-28 | register and admin-create accept the same passwords and names; a valid password has at least 8 characters besides variation selectors, at least one of them not a selector |
| Dtos.PersonNameBounds | src/auth/dto/auth.dto.ts:22-30 | a valid first or last name is not empty; a name without variation selectors is valid iff it has 1 to 50 characters; appending selectors to a valid name keeps it valid |
| Dtos.PhoneRuleRefuses | src/contacts/dto/create-contact.dto.ts:27-32 | an empty phone, a bare `+`, or one with a letter or an inner `+` is refused by both contact and company bodies |
| Dtos.ProbabilityIsAPercentage | src/deals/dto/create-deal.dto.ts:31-35 | for any real probability p, a deal body with a valid title and amount is valid iff p is an integer in 0..100; a fractional p is always refused |
| Pagination.Meta | src/users/users.service.ts:55-64 | the meta echoes page, limit and total, and totalPages is the ceiling of total / limit |
| Pagination.Page | src/users/users.service.ts:39-45 | `skip (page-1)*limit, take limit` returns at most limit rows, each the row at its offset |
| Pagination.PageLength | src/users/users.service.ts:39-45 | a page has min(limit, rows beyond the skipped ones) rows, none past the end |
| Pagination.HasNextPageIffMoreRows | src/users/users.service.ts:61-62 | hasNextPage iff rows exist beyond this page; hasPrevPage iff page >= 2 |
| Pagination.PageNonEmptyIff | src/users/users.service.ts:39-61 | a page has rows iff its number is at most totalPages |
| Pagination.RowOnItsPage | src/users/users.service.ts:39-45 | every row appears on page i / limit + 1 at position i % limit |
| Pagination.ListsCount | src/users/users.service.ts:41-51 | a listing of a filter has as many rows as the count of that filter |
| Pagination.ListedPage | src/users/users.service.ts:41-51 | every row on a page satisfies the filter the count used |
| Pagination.RowsOf | src/users/users.service.ts:42-47 | fetching the listed ids gives their rows in order |
| Pagination.ListTable | src/contacts/contacts.service.ts:56-82 | a listing's data is the rows of the requested page of the ordered filter rows, and its meta counts the filter |
| Auth.FindByEmail | src/auth/auth.service.ts:63-65 | the user with that email, or none when no user has it |
| Auth.MinutesRemaining | src/auth/auth.service.ts:72-79 | the minutes in the lock message are the lock's remaining time rounded up, at least 1 |
| Auth.GenerateTokens | src/auth/auth.service.ts:215-233 | both tokens carry the user's id, email and role, each verifies under its own key until its own expiry, and the access token never verifies as a refresh token when the keys differ |
| Auth.GetCurrentUser | src/auth/auth.service.ts:192-213 | iff the id exists, that row's id, email, names, role, isActive, lastLoginAt and createdAt; else Unauthorized "User not found" |
| Auth.AuthService.Register | src/auth/auth.service.ts:26-60 | the users table after `register` is `RegisterStep` of the old one with the default role, and emails stay unique |
| Auth.AuthService.Login | src/auth/auth.service.ts:62-140 | the users table after `login` is `LoginStep` of the old one, and emails stay unique |
| Auth.AuthService.RefreshTokens | src/auth/auth.service.ts:142-179 | the users table after `refreshTokens` is `RefreshStep` of the old one under the bcrypt check, which compares only the first 72 bytes of the tokens |
| Auth.AuthService.Logout | src/auth/auth.service.ts:181-190 | the users table after `logout` is `LogoutStep` of the old one |
| Auth.LockedRefusesWhateverThePassword | src/auth/auth.service.ts:71-79 | a locked account is refused with the minutes-remaining message, right password or not, and nothing changes |
| Auth.WrongPasswordCounts | src/auth/auth.service.ts:84-103 | a wrong password adds one failure; the fifth locks for exactly 15 minutes; earlier ones keep the lock field; nothing else changes |
| Auth.FifthStrikeLocks | src/auth/auth.service.ts:86-95 | right after the fifth failure any login is refused with 15 minutes remaining |
| Auth.LockedMinutesAtMostFifteen | src/auth/auth.service.ts:72-92 | the minutes reported by a lock are between 1 and 15 |
| Auth.FailuresAccumulate | src/auth/auth.service.ts:84-103 | n consecutive failures add n; below five the lock is untouched; from five the lock ends 15 minutes after the last one |
| Auth.FiveStrikes | src/auth/auth.service.ts:86-95 | from a clean account, the first five wrong passwords are all judged (none refused as locked) and the fifth locks |
| Auth.RelockAfterExpiry | src/auth/auth.service.ts:86-95 | once the counter is at four or more, the failure after a lock expires locks again at once, since success alone resets it |
| Auth.OnlySuccessClearsLock | src/auth/auth.service.ts:71-113 | refused means locked; rejected means a wrong password and more failures; accepted means the right password and a reset counter and lock |
| Auth.UnknownEmailLooksLikeWrongPassword | src/auth/auth.service.ts:67-69 | an unknown email gets the same "Invalid credentials" as a wrong password, and changes nothing |
| Auth.LoginSucceeds | src/auth/auth.service.ts:105-139 | a right password returns both tokens with the user's claims, expiresIn 3600, Bearer and the user summary; it resets failures and lock, stamps lastLoginAt, stores the digest of the returned refresh token, and touches no other row; checked whole that digest accepts only the returned token, checked by bcrypt it accepts every token with the same first 72 bytes, so every token with the same claims |
| Auth.LoginKeepsEmailsUnique | src/auth/auth.service.ts:62-140 | login keeps user emails unique and adds no user |
| Auth.RegisterConflictOrInsert | src/auth/auth.service.ts:26-60 | register conflicts iff the email is taken (deleted users included); otherwise it adds exactly one row with the default role and the bcrypt digest of the password, which accepts exactly the passwords with the same first 72 UTF-8 bytes (only the password itself when it is shorter), and returns it |
| Auth.RefreshSucceedsIff | src/auth/auth.service.ts:142-179 | under either check, refresh succeeds iff the token verifies under the refresh key, names a user with a stored digest, and the check accepts it; any failure is "Invalid refresh token" with no change; a success stores the digest of a new token with the row's current claims and changes only that row |
| Auth.LoginThenRefresh | src/auth/auth.service.ts:116-123 | the refresh token a login returns is accepted by refresh, under either check, until it expires |
| Auth.RefreshRotatesOut | src/auth/auth.service.ts:165-173 | with the token checked whole, after a refresh that issued a different token the old one is refused |
| Auth.RotatedOutTokenStillRefreshes | src/auth/auth.service.ts:156-173 | with bcrypt's check, after a refresh the old token still refreshes until it expires, when the claims are unchanged or the subject has 19 characters or more |
| Auth.SameSecondRefreshReissues | src/auth/auth.service.ts:165-173 | a refresh in the same second as the token's issue reissues the identical token, which stays valid |
| Auth.LogoutRevokes | src/auth/auth.service.ts:181-190 | after logout no refresh token of that user is accepted, and logging out twice is logging out once |
| Auth.AccessTokenIsNotARefreshToken | src/auth/auth.service.ts:215-227 | an access token presented for refresh is refused when the two keys differ |
| Auth.InactiveAndDeletedStillLogIn | src/auth/auth.service.ts:62-140 | login and the service's profile lookup look at neither isActive nor deletedAt |
| JwtStrategy.Validate | src/auth/strategies/jwt.strategy.ts:20-38 | the token's user iff it exists and is active, else "User not found or inactive" |
| JwtStrategy.UnsetSecretRejectsIssuedTokens | src/auth/strategies/jwt.strategy.ts:16 | as written, with JWT_SECRET unset every access token login issues is refused |
| JwtStrategy.AsWrittenAgreesWhenSecretSet | src/auth/strategies/jwt.strategy.ts:16 | with JWT_SECRET set the as-written and corrected checks agree |
| JwtStrategy.AuthenticateIff | src/auth/strategies/jwt.strategy.ts:13-37 | a token is accepted iff it is signed with the access key, not expired, and names an active user |
| JwtStrategy.ExpiredTokenRejected | src/auth/strategies/jwt.strategy.ts:15 | an expired token is refused |
| JwtStrategy.InactiveOrMissingRejected | src/auth/strategies/jwt.strategy.ts:33-35 | a valid token naming a missing or inactive user is refused with "User not found or inactive" |
| JwtStrategy.LoginThenAuthenticate | src/auth/strategies/jwt.strategy.ts:13-17 | the access token a login returns authenticates until it expires iff the user is active |
| JwtStrategy.GuardLooksAtActiveNotDeleted | src/auth/strategies/jwt.strategy.ts:20-38 | a fresh access token of an inactive user is refused with "User not found or inactive"; one of an active soft-deleted user is accepted and its profile lookup succeeds |
| Users.ViewsOf | src/users/users.service.ts:54 | each listed user is turned into its response view, in order |
| Users.FindAll | src/users/users.service.ts:38-66 | the views of the requested page of the ordered live users, and a meta counting the live users |
| Users.FindOne | src/users/users.service.ts:68-81 | a live user's view, else NotFound "User not found" |
| Users.UsersService.Create | src/users/users.service.ts:14-36 | the users table after `create` is `CreateStep` of the old one with the default role, and emails stay unique |
| Users.UsersService.Update | src/users/users.service.ts:83-103 | the users table after `update` is `UpdateStep` of the old one |
| Users.UsersService.UpdateRole | src/users/users.service.ts:105-125 | the users table after `updateRole` is `UpdateRoleStep` of the old one |
| Users.UsersService.Remove | src/users/users.service.ts:127-159 | the users table after `remove` is `RemoveStep` of the old one |
| Users.CreateConflictOrInsert | src/users/users.service.ts:14-36 | create conflicts iff the email is taken; otherwise it adds exactly one row with the body's fields, its role or else the default role, and the bcrypt digest of the password, which accepts exactly the passwords with the same first 72 UTF-8 bytes |
| Users.StepsKeepEmailsUnique | src/users/users.service.ts:83-159 | update, updateRole and remove keep emails unique |
| Users.MissingOrDeletedIsNotFound | src/users/users.service.ts:76-78 | findOne, update, updateRole and remove of a missing or deleted user are NotFound with no change |
| Users.UpdateTouchesOnlyProfile | src/users/users.service.ts:97-100 | update writes exactly the names and isActive the body carries, and no other field or row |
| Users.RemoveIsSoft | src/users/users.service.ts:155-158 | remove only stamps deletedAt on that row, which is then not found |
| Users.RemoveKeepsASuperAdmin | src/users/users.service.ts:140-152 | remove never leaves the system without a live SUPER_ADMIN |
| Users.LastSuperAdminForbidden | src/users/users.service.ts:141-151 | removing a SUPER_ADMIN is Forbidden iff they are the only live one |
| Users.SubsetCardinality | src/users/users.service.ts:142-147 | a subset of the live super-admins is no larger than the whole, which the count relies on |
| Users.UpdateRoleCanDemoteLastSuperAdmin | src/users/users.service.ts:118-122 | updateRole can demote the only SUPER_ADMIN, leaving none |
| Users.RemovedUserKeepsEmailAndLogin | src/users/users.service.ts:16-22 | a removed user's email still conflicts on create, and the removed user can still log in |
| UsersController.OwnerOrAdmin | src/users/users.controller.ts:63-95 | viewing or updating a profile is allowed iff the caller is ADMIN or SUPER_ADMIN or the profile's owner; otherwise Forbidden with no change; when allowed it is the service call |
| UsersController.RouteRoles | src/users/users.controller.ts:35-106 | create and list are for admins; updateRole and remove for SUPER_ADMIN only; view and update for every role |
| UsersController.DefaultListing | src/users/users.controller.ts:51-56 | without query parameters the listing is page 1 of 20, with no previous page |
| Contacts.FullNameRoundTrip | src/contacts/contacts.service.ts:251-256 | `fullName` is first and last name joined by one space, and splits back into them when the first name has no space |
| Contacts.SplitJoined | src/contacts/contacts.service.ts:254 | splitting `f + " " + l` at the first space gives f and l |
| Contacts.ViewsOf | src/contacts/contacts.service.ts:71 | each listed contact gets its full name, in order |
| Contacts.FindAll | src/contacts/contacts.service.ts:44-83 | the store's validation error (a 500) iff a truthy `status` is not a ContactStatus name; otherwise the listing `MatchingPage` describes |
| Contacts.MatchingPage | src/contacts/contacts.service.ts:46-82 | the requested page of the ordered live contacts passing a truthy status and companyId filter, with full names, and a meta counting the same filter |
| Contacts.FindOne | src/contacts/contacts.service.ts:85-101 | a live contact with its full name, else NotFound "Contact not found" |
| Contacts.ContactActivities | src/contacts/contacts.service.ts:158-199 | NotFound unless the contact is live; else the requested page of its ordered activities with the page metadata: page, limit, total count of that filtered set and the page count it gives |
| Contacts.ContactDeals | src/contacts/contacts.service.ts:201-249 | NotFound unless the contact is live; else the requested page of its ordered live deals with the page metadata: page, limit, total count of that filtered set and the page count it gives |
| Contacts.ContactsService.Create | src/contacts/contacts.service.ts:10-42 | the contacts table after `create` is `CreateStep` of the old one, and emails stay unique |
| Contacts.ContactsService.Update | src/contacts/contacts.service.ts:103-145 | the contacts table after `update` is `UpdateStep` of the old one, and emails stay unique |
| Contacts.ContactsService.Remove | src/contacts/contacts.service.ts:147-156 | the contacts table after `remove` is `RemoveStep` of the old one |
| Contacts.CreateOutcomes | src/contacts/contacts.service.ts:10-42 | create conflicts iff a live contact holds the email; then NotFound iff a given company is not live; then a store failure iff a deleted contact holds the email; else one new live row with the body's email and company |
| Contacts.WritesKeepEmailsUnique | src/contacts/contacts.service.ts:10-156 | create, update and remove keep contact emails unique |
| Contacts.UpdateOutcomes | src/contacts/contacts.service.ts:103-145 | NotFound iff missing or deleted; a conflict iff a truthy new email is held by another live contact, never by the contact itself; past that, NotFound "Company not found" iff a truthy companyId names no live company; past that, the store's unique-index failure iff another (soft-deleted) row holds the resulting email, and success otherwise; errors leave the table unchanged; success rewrites this row only, each field from the body when carried and kept otherwise, creation time and liveness kept |
| Contacts.RemoveIsSoft | src/contacts/contacts.service.ts:147-156 | remove only stamps deletedAt; the contact is then not found and cannot be removed again |
| Contacts.DeletedEmailStillTaken | src/contacts/contacts.service.ts:12-18 | a removed contact's email passes the conflict check and fails at the store's unique index |
| Deals.FindAll | src/deals/deals.service.ts:68-128 | the store's validation error (a 500) iff a truthy `stage` is not a DealStage name; otherwise the requested page of the ordered live deals whose stage has that name and, when truthy, that owner, and a meta counting the same filter |
| Deals.FindOne | src/deals/deals.service.ts:130-162 | a live deal, else NotFound "Deal not found" |
| Deals.DealActivities | src/deals/deals.service.ts:271-312 | NotFound unless the deal is live; else the requested page of its ordered activities with the page metadata: page, limit, total count of that filtered set and the page count it gives |
| Deals.RefCheck | src/deals/deals.service.ts:14-39 | no error iff every truthy reference names a live row; the contact is checked before the company |
| Deals.DealsService.Create | src/deals/deals.service.ts:12-66 | the deals table after `create` is `CreateStep` of the old one |
| Deals.DealsService.Update | src/deals/deals.service.ts:164-219 | the deals table after `update` is `UpdateStep` of the old one |
| Deals.DealsService.UpdateStage | src/deals/deals.service.ts:221-258 | the deals table after `updateStage` is `UpdateStageStep` of the old one |
| Deals.DealsService.Remove | src/deals/deals.service.ts:260-269 | the deals table after `remove` is `RemoveStep` of the old one |
| Deals.AtStage | src/deals/deals.service.ts:330-332 | the listed deals whose stage is the given one, in order |
| Deals.EmptyGroups | src/deals/deals.service.ts:325-328 | one empty group per stage value and no other group |
| Deals.FillGroups | src/deals/deals.service.ts:325-332 | each stage's group is exactly the listed deals at that stage, in listing order |
| Deals.PipelineSummary | src/deals/deals.service.ts:314-374 | each stage's count is its number of live deals, and totalDeals is the number of live deals; when every live deal's stage is listed the counts add up to totalDeals |
| Deals.LiveStagesListed | src/deals/deals.service.ts:315-331 | every fetched deal is live and, when the stage list is complete, has a listed stage |
| Deals.TotalCountIsSum | src/deals/deals.service.ts:335-355 | the stage counts add up to the sum of per-stage group sizes |
| Deals.OccursOnce | src/deals/deals.service.ts:326 | in a list of distinct stage values, a listed one occurs once |
| Deals.OccursNot | src/deals/deals.service.ts:326 | an unlisted stage value occurs nowhere |
| Deals.SumCountsSnoc | src/deals/deals.service.ts:330-332 | adding a deal adds one to its stage's group and nothing to the others |
| Deals.CountsPartition | src/deals/deals.service.ts:330-336 | when every deal's stage is listed the groups partition the deals |
| Deals.SumCountsEmpty | src/deals/deals.service.ts:325-328 | before any deal is grouped every group is empty |
| Deals.StageCountIsLiveDealsAtStage | src/deals/deals.service.ts:336 | a stage's count is the number of live deals at that stage |
| Deals.AtStageDistinct | src/deals/deals.service.ts:330-332 | no deal is grouped twice |
| Deals.CreateOutcomes | src/deals/deals.service.ts:12-66 | NotFound iff a truthy contact, then company, is not live; else one new live row owned by the caller, with no close date and the body's title, amount and stage or the default |
| Deals.CreateKeepsProbability | src/deals/deals.service.ts:41-45 | a valid body's probability is stored as given and is within 0..100 |
| Deals.MissingOrDeletedIsNotFound | src/deals/deals.service.ts:156-159 | findOne, update, updateStage, remove and the activity listing of a missing or deleted deal are NotFound with no change |
| Deals.UpdateStageCloseDate | src/deals/deals.service.ts:221-258 | updateStage sets the stage and, for CLOSED_WON or CLOSED_LOST only, stamps the close date with now; nothing else changes |
| Deals.UpdateOutcomes | src/deals/deals.service.ts:164-219 | NotFound for a missing or deleted deal; then a truthy contactId must name a live contact and a truthy companyId a live company, in that order, whose error is the result and leaves the table unchanged; success rewrites this row only, each field from the body when carried and kept otherwise, owner, creation time, liveness and close date kept |
| Deals.OnlyUpdateStageStampsCloseDate | src/deals/deals.service.ts:196-218 | the general update never changes the close date |
| Deals.RemoveIsSoft | src/deals/deals.service.ts:260-269 | remove only stamps deletedAt; the deal is then not found and drops out of every listing filter |
| Activities.FindAll | src/activities/activities.service.ts:72-133 | the store's validation error (a 500) iff a truthy `type` is not an ActivityType name; otherwise the requested page of the ordered activities filtered by truthy type, contactId and dealId, and a meta counting the same filter |
| Activities.FindOne | src/activities/activities.service.ts:135-169 | the activity iff it exists (no soft delete), else NotFound "Activity not found" |
| Activities.RefCheck | src/activities/activities.service.ts:12-37 | no error iff every truthy reference names a live row; the contact is checked before the deal |
| Activities.ActivitiesService.Create | src/activities/activities.service.ts:10-70 | the activities table after `create` is `CreateStep` of the old one |
| Activities.ActivitiesService.Update | src/activities/activities.service.ts:171-211 | the activities table after `update` is `UpdateStep` of the old one |
| Activities.ActivitiesService.Remove | src/activities/activities.service.ts:213-218 | the activities table after `remove` is `RemoveStep` of the old one |
| Activities.ActivitiesService.MarkComplete | src/activities/activities.service.ts:220-226 | the activities table after `markComplete` is `MarkCompleteStep` of the old one |
| Activities.DueList | src/activities/activities.service.ts:229-240 | every row of the filter exactly once, in ascending due date |
| Activities.GetUpcoming | src/activities/activities.service.ts:228-250 | each of the caller's open activities due from the start of today on, exactly once, in ascending due date |
| Activities.GetOverdue | src/activities/activities.service.ts:252-274 | each of the caller's open activities due before the start of today, exactly once, in ascending due date |
| Activities.UpcomingOverduePartition | src/activities/activities.service.ts:228-274 | upcoming and overdue are disjoint and together are the caller's open dated activities |
| Activities.CreateOutcomes | src/activities/activities.service.ts:10-70 | NotFound iff a truthy contact, then deal, is not live; else one new open row by the caller with the body's subject, due date and references |
| Activities.UpdateOutcomes | src/activities/activities.service.ts:171-211 | NotFound iff missing; for an existing id, an error iff a reference check fails, and then exactly that check's NotFound ("Contact not found" before "Deal not found"); errors leave the table unchanged; success rewrites this row only, each of the seven fields from the body when carried and kept otherwise, author and creation time kept |
| Activities.RemoveIsHard | src/activities/activities.service.ts:213-218 | remove deletes the row for good and returns it; afterwards it is not found, and remove and markComplete are NotFound |
| Activities.MarkCompleteCloses | src/activities/activities.service.ts:220-226 | markComplete is NotFound iff missing; else it stamps completedAt, and the activity leaves upcoming and overdue |
| Companies.FindAll | src/companies/companies.service.ts:16-44 | the requested page of the ordered live companies and a meta counting them |
| Companies.FindOne | src/companies/companies.service.ts:46-59 | a live company, else NotFound "Company not found" |
| Companies.CompanyContacts | src/companies/companies.service.ts:82-119 | NotFound unless the company is live; else the requested page of its ordered live contacts with the page metadata: page, limit, total count of that filtered set and the page count it gives |
| Companies.CompanyDeals | src/companies/companies.service.ts:121-176 | NotFound unless the company is live; else the requested page of its ordered live deals with the page metadata: page, limit, total count of that filtered set and the page count it gives |
| Companies.CompaniesService.Create | src/companies/companies.service.ts:10-14 | the companies table after `create` is `CreateStep` of the old one |
| Companies.CompaniesService.Update | src/companies/companies.service.ts:61-69 | the companies table after `update` is `UpdateStep` of the old one |
| Companies.CompaniesService.Remove | src/companies/companies.service.ts:71-80 | the companies table after `remove` is `RemoveStep` of the old one, and contacts and deals are untouched |
| Companies.CreateAlwaysAdds | src/companies/companies.service.ts:10-14 | create always succeeds and adds the body's live row |
| Companies.MissingOrDeletedIsNotFound | src/companies/companies.service.ts:46-59 | findOne, update, remove and both sub-listings of a missing or deleted company are NotFound with no change |
| Companies.UpdateKeepsTheRest | src/companies/companies.service.ts:61-69 | update on a live company rewrites that row only: each of the six fields is taken from the body when it carries it and kept otherwise; creation time and liveness are kept |
| Companies.RemovedCompanyKeepsItsReferences | src/companies/companies.service.ts:71-80 | a removed company stays in the table and still referenced, but a new contact or deal naming it is NotFound |
| Companies.RemoveIsSoft | src/companies/companies.service.ts:71-80 | remove only stamps deletedAt; the company drops out of the listing and every other row stays |
| ExceptionFilter.ErrorCode | src/common/filters/http-exception.filter.ts:57-70 | a known code iff the status is one of 400, 401, 403, 404, 409, 422, 429, 500 |
| ExceptionFilter.ErrorResponse | src/common/filters/http-exception.filter.ts:15-55 | every body has success false, the request path and the timestamp; a non-HTTP error is a 500 INTERNAL_ERROR without details |
| ExceptionFilter.Catch | src/common/filters/http-exception.filter.ts:15-55 | the branch-by-branch body is the one `ErrorResponse` describes |
| ExceptionFilter.ErrorCodesDistinct | src/common/filters/http-exception.filter.ts:57-70 | the known statuses have distinct codes |
| ExceptionFilter.ServiceErrorResponse | src/common/filters/http-exception.filter.ts:25-41 | a service error reaches the client with its status and message; an HTTP error's code is its reason phrase and its details repeat the message; a store failure is a 500 INTERNAL_ERROR |
| ExceptionFilter.HttpExceptionFallbacks | src/common/filters/http-exception.filter.ts:29-37 | a string response gives that message and the status's code; an empty object falls back to the exception's message and the status's code |
| ExceptionFilter.ValidationMessagesAreDetails | src/common/filters/http-exception.filter.ts:31-33 | a validation failure's message list is both the message and the details |
| Transform.Wrap | src/common/interceptors/transform.interceptor.ts:16-31 | the result is always an envelope; an envelope passes unchanged; anything else is wrapped with success true, the data and the path |
| Transform.WrapIdempotent | src/common/interceptors/transform.interceptor.ts:18-20 | wrapping twice is wrapping once |
| Transform.NonEnvelopesAreWrapped | src/common/interceptors/transform.interceptor.ts:18-30 | null, undefined, primitives and objects without `success` are wrapped |
| Transform.AnySuccessKeyPassesThrough | src/common/interceptors/transform.interceptor.ts:18-20 | any object with a `success` key, even false, passes through unwrapped |
| AuditLog.Split | src/common/interceptors/audit-log.interceptor.ts:35 | `split('/')` gives at least one piece, none containing `/` |
| AuditLog.JoinSplit | src/common/interceptors/audit-log.interceptor.ts:35 | joining the pieces with `/` gives the URL back |
| AuditLog.SplitJoin | src/common/interceptors/audit-log.interceptor.ts:35 | splitting a join of slash-free pieces gives the pieces back |
| AuditLog.SplitNoSlash | src/common/interceptors/audit-log.interceptor.ts:35 | a slash-free string splits into itself |
| AuditLog.SplitAfter | src/common/interceptors/audit-log.interceptor.ts:35 | splitting `p/tail` is p followed by the split of tail |
| AuditLog.NonEmptyParts | src/common/interceptors/audit-log.interceptor.ts:35 | `filter(p => p)` keeps only non-empty pieces |
| AuditLog.NonEmptyPartsAppend | src/common/interceptors/audit-log.interceptor.ts:35 | the filter distributes over concatenation |
| AuditLog.Entity | src/common/interceptors/audit-log.interceptor.ts:35-37 | the entity name is never empty |
| AuditLog.EntityOfApiPath | src/common/interceptors/audit-log.interceptor.ts:33-37 | for `/api/v1/<entity>/...` the entity is the third path segment |
| AuditLog.ShortPathIsUnknown | src/common/interceptors/audit-log.interceptor.ts:37 | a URL with fewer than three segments is audited as "unknown" |
| AuditLog.FirstTruthy | src/common/interceptors/audit-log.interceptor.ts:42-50 | truthy iff some candidate is, and then the first truthy candidate |
| AuditLog.DeriveEntityId | src/common/interceptors/audit-log.interceptor.ts:42-50 | the step-by-step entityId is truthy iff some of params.id, data.id, data.data.id is, and is the first such |
| AuditLog.FirstTruthyOfThree | src/common/interceptors/audit-log.interceptor.ts:42-50 | the first truthy of three, case by case |
| AuditLog.AuditLogInterceptor.Intercept | src/common/interceptors/audit-log.interceptor.ts:19-74 | the response is passed on unchanged, and the audit log gains exactly the entry `AuditFor` describes when it is written |
| AuditLog.WhoAndWhat | src/common/interceptors/audit-log.interceptor.ts:24-61 | an entry is only for POST, PATCH or DELETE by a logged-in user, and records the user, the method and the URL's entity |
| AuditLog.EntityIdPrecedence | src/common/interceptors/audit-log.interceptor.ts:42-55 | params.id wins over data.id over data.data.id; with none truthy no entry is written; the entry's entityId is that id |
| AuditLog.NewValueRule | src/common/interceptors/audit-log.interceptor.ts:63 | DELETE records no new value; otherwise data.data if truthy, else data |
| AuditLog.EmptyResponseNotAudited | src/common/interceptors/audit-log.interceptor.ts:63-71 | a POST or PATCH whose handler returns null or undefined is never audited: reading `data.data` throws and the catch swallows it |

## Left out

- I/O and framework plumbing: HTTP routing, guards beyond the declared role lists, the throttler, the logger, Prisma `include`/`select` shaping of responses, and `updatedAt` stamps.
- Concurrency: every service call is one atomic step. The check-then-write races of the source (two creates with the same email) are not modelled.
- bcrypt is modelled by what it reads: the first 72 UTF-8 bytes of its input, kept with the salt. Cryptographic strength, the cost factor and the digest's own encoding are not modelled. How node's bcrypt treats a NUL character inside the input is not modelled either.
- A JWT is its claims, times and key; the key stands for the HMAC signature, which is not computed. The header and payload segments are written out (base64url of the JSON) because bcrypt reads them; the header's base64url is the constant `Crypto.JWT_HEADER_B64`, not computed from the header JSON.
- The JWT TTL strings (`'1h'`, `'7d'`) are taken as seconds already parsed. The string parser is not part of this model.
- Clocks and ids: `now`, `startOfToday` (local midnight in the server's time zone), salts and new row ids are parameters.
- The store's result order is the parameter `ordered`. Sorting by `createdAt` or `dueDate` is stated as a requirement (`Activities.ByDueDate`), not computed.
- The money sums of the pipeline summary (`totalAmount`, `weightedAmount`, `totalPipelineValue`, `totalWeightedValue`, `toFixed(2)`) are left out, because they are floating point. The counts are modelled.
- The full value lists of `DealStage`, `ContactStatus` and `ActivityType` come from the Prisma schema, which is not part of this model. Stages are `Open(name)`, `CLOSED_WON` or `CLOSED_LOST`, and the pipeline takes the list of stage values as a parameter. The listings that filter on them (`Contacts.FindAll`, `Deals.FindAll`, `Activities.FindAll`) take the list of names as a parameter, and the validation error stands for the store's by the placeholder `Entities.INVALID_ENUM_VALUE`.
- `@IsEmail`, `@IsUrl`, `@IsDateString` and the UUID shape of `@IsUUID` are not modelled. For the optional ids, only "not empty when present" (`Dtos.NonEmptyIfPresent`) is required.
- Pagination with `page < 1` or `limit < 1` (a negative skip, a division by zero) is excluded by the listings' preconditions. The controllers' `ParseIntPipe` inputs are taken as integers.
- `null` in a PATCH body (clearing a field) is not modelled. An absent field is `None` and leaves the stored value.
- `String(entityId)` in the audit entry is not modelled. The entry keeps the JSON value, so `entityId` is compared as JSON, not as text.
- Whether the audit-log insert itself fails is the parameter `written` of `AuditLog.AuditLogInterceptor.Intercept`.
- The framework's own exception bodies are the ones `ExceptionFilter.Thrown` builds: `{statusCode, message, error}`. Validation pipes are represented only by `ExceptionFilter.ValidationMessagesAreDetails`.
- The 401 that the passport JWT guard sends for a bad token carries the message "Unauthorized". Its exact framework body is not modelled.
- AuditLog.DeriveEntityId: when no candidate is truthy, only its falsiness is stated, not which falsy value (params.id) is kept, because no entry is written then.

## Findings

| source | as written | input that shows it | evidently intended | confidence | as-written member | corrected member |
|---|---|---|---|---|---|---|
| src/auth/auth.service.ts:156-159 | refresh checks the presented token with `bcrypt.compare` against the hash of the stored token (src/auth/auth.service.ts:119, :169); bcrypt reads only the first 72 bytes, which for an HS256 token are the header, the dot and the start of the payload `{"sub":"<id>…`, the same for every token of the user | log in, refresh with the returned token, then refresh again with that first token before it expires: it is accepted again, although it was rotated out | a rotated-out refresh token is refused: the stored check compares the whole token (for example a SHA-256 of it, or the token itself) | high, not executed | Auth.RotatedOutTokenStillRefreshes | Auth.RefreshRotatesOut |
| src/auth/strategies/jwt.strategy.ts:16 | the strategy verifies with `JWT_SECRET \|\| 'default-secret-change-in-production'`, while tokens are signed with `JWT_SECRET \|\| 'default-secret'` (src/auth/auth.service.ts:220) | JWT_SECRET unset; log in, then call any guarded route with the returned access token: it is refused with 401 | both sides fall back to the same secret, so an issued access token authenticates until it expires | high, not executed | JwtStrategy.UnsetSecretRejectsIssuedTokens | JwtStrategy.LoginThenAuthenticate |
