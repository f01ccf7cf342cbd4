/** The rows of the CRM's tables and the store that holds them. Each table is
    a map from id to row; soft-deletable rows carry `deletedAt`, and a row is
    live while that is unset. */
module Entities {
  import opened Common
  import opened Enums
  import opened Crypto
  import opened Json

  datatype User = User(
    email: string,
    password: Digest,
    firstName: string,
    lastName: string,
    role: Role,
    isActive: bool,
    failedAttempts: nat,
    lockedUntil: Option<Time>,
    lastLoginAt: Option<Time>,
    refreshToken: Option<TokenDigest>,
    createdAt: Time,
    deletedAt: Option<Time>)
  {
    predicate Live() { deletedAt.None? }
  }

  datatype Company = Company(
    name: string,
    industry: Option<string>,
    website: Option<string>,
    address: Option<string>,
    phone: Option<string>,
    notes: Option<string>,
    createdAt: Time,
    deletedAt: Option<Time>)
  {
    predicate Live() { deletedAt.None? }
  }

  /** `status` holds a `ContactStatus` name; the names are the schema's. */
  datatype Contact = Contact(
    firstName: string,
    lastName: string,
    email: string,
    phone: Option<string>,
    title: Option<string>,
    status: string,
    companyId: Option<Id>,
    notes: Option<string>,
    createdAt: Time,
    deletedAt: Option<Time>)
  {
    predicate Live() { deletedAt.None? }
  }

  datatype Deal = Deal(
    title: string,
    amount: real,
    stage: DealStage,
    probability: int,
    expectedCloseDate: Option<string>,
    actualCloseDate: Option<Time>,
    contactId: Option<Id>,
    companyId: Option<Id>,
    ownerId: Id,
    notes: Option<string>,
    createdAt: Time,
    deletedAt: Option<Time>)
  {
    predicate Live() { deletedAt.None? }
  }

  /** Activities are deleted for good, so they have no `deletedAt`. */
  datatype Activity = Activity(
    kind: string,
    subject: string,
    description: Option<string>,
    dueDate: Option<Time>,
    completedAt: Option<Time>,
    contactId: Option<Id>,
    dealId: Option<Id>,
    userId: Id,
    createdAt: Time)

  datatype AuditEntry = AuditEntry(
    userId: Id,
    action: string,
    entity: string,
    entityId: Json,
    newValue: Json,
    ipAddress: string,
    userAgent: Json)

  /** `findFirst({ where: { id, deletedAt: null } })` finds a row. */
  predicate LiveUser(users: map<Id, User>, id: Id) {
    id in users && users[id].Live()
  }

  predicate LiveCompany(companies: map<Id, Company>, id: Id) {
    id in companies && companies[id].Live()
  }

  predicate LiveContact(contacts: map<Id, Contact>, id: Id) {
    id in contacts && contacts[id].Live()
  }

  predicate LiveDeal(deals: map<Id, Deal>, id: Id) {
    id in deals && deals[id].Live()
  }

  /** The unique index on users' email: soft-deleted rows keep their email. */
  ghost predicate UniqueUserEmails(users: map<Id, User>) {
    forall a, b :: a in users && b in users && users[a].email == users[b].email ==> a == b
  }

  /** The unique index on contacts' email, over every row. */
  ghost predicate UniqueContactEmails(contacts: map<Id, Contact>) {
    forall a, b :: a in contacts && b in contacts && contacts[a].email == contacts[b].email ==> a == b
  }

  /** Stands for the message of the store's error when a write would break
      a unique index (Prisma's P2002); the text is a placeholder, since the
      client library that words it is not part of this model. */
  const UNIQUE_VIOLATION := "Unique constraint failed on the fields: (`email`)"

  /** Stands for the message of the store's validation error when a filter
      names a value outside its column's enum (Prisma's client-side
      validation, before any query); the text is a placeholder, like
      `UNIQUE_VIOLATION`'s. */
  const INVALID_ENUM_VALUE := "Invalid value for argument: expected an enum value"

  /** The conflict both registration and user creation raise. */
  const USER_EXISTS := "User with this email already exists"

  /** Stands for the message of the store's error when `update` or `delete`
      is given an id that has no row (Prisma's P2025); the text is a
      placeholder, like `UNIQUE_VIOLATION`'s. */
  const RECORD_NOT_FOUND := "Record to update not found."

  /** A new user row as the store fills it in: the schema defaults are an
      active account with no failed attempts, no lock, no session and no
      deletion. */
  function NewUser(email: string, password: Digest, firstName: string, lastName: string, role: Role, now: Time): (u: User)
    ensures u.email == email && u.password == password && u.role == role
    ensures u.isActive && u.Live() && u.failedAttempts == 0 && u.lockedUntil.None?
    ensures u.refreshToken.None? && u.lastLoginAt.None? && u.createdAt == now
  {
    User(email, password, firstName, lastName, role, true, 0, None, None, None, now, None)
  }

  /** Rewriting a user row without touching its email keeps emails unique. */
  lemma UniqueUserEmailsAfterUpdate(users: map<Id, User>, id: Id, u: User)
    requires UniqueUserEmails(users) && id in users && u.email == users[id].email
    ensures UniqueUserEmails(users[id := u])
  {
  }

  /** Inserting a row under a fresh id with an unused email keeps emails unique. */
  lemma UniqueUserEmailsAfterInsert(users: map<Id, User>, id: Id, u: User)
    requires UniqueUserEmails(users) && id !in users
    requires forall k :: k in users ==> users[k].email != u.email
    ensures UniqueUserEmails(users[id := u])
  {
  }

  /** The database: one map per table and the append-only audit log. */
  class Database {
    var users: map<Id, User>
    var companies: map<Id, Company>
    var contacts: map<Id, Contact>
    var deals: map<Id, Deal>
    var activities: map<Id, Activity>
    var auditLogs: seq<AuditEntry>

    /** The store's unique indexes hold. */
    ghost predicate Valid()
      reads this
    {
      UniqueUserEmails(users) && UniqueContactEmails(contacts)
    }

    constructor ()
      ensures Valid()
      ensures users == map[] && companies == map[] && contacts == map[]
      ensures deals == map[] && activities == map[] && auditLogs == []
    {
      users, companies, contacts := map[], map[], map[];
      deals, activities, auditLogs := map[], map[], [];
    }
  }
}
