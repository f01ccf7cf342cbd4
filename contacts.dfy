/** The contacts service: creation and update with the email and company
    checks, the soft-delete-aware listing and lookup, the soft delete, the
    contact's activities and deals, and the `fullName` every returned
    contact carries. */
module Contacts {
  import opened Common
  import opened Entities
  import opened Dtos
  import opened Pagination

  const CONTACT_EXISTS := "Contact with this email already exists"
  const CONTACT_NOT_FOUND := "Contact not found"
  const COMPANY_NOT_FOUND := "Company not found"

  /** A contact as the service returns it: the row with its id and the
      added `fullName` (the embedded company is not modelled). */
  datatype ContactView = ContactView(id: Id, contact: Contact, fullName: string)

  /** `addFullName`. */
  function AddFullName(id: Id, c: Contact): ContactView {
    ContactView(id, c, c.firstName + " " + c.lastName)
  }

  /** Reading a full name back: the text before the first space, and the
      text after it. */
  function SplitAtFirstSpace(s: string): (string, string)
    decreases |s|
  {
    if s == [] then ("", "")
    else if s[0] == ' ' then ("", s[1..])
    else var (a, b) := SplitAtFirstSpace(s[1..]); ([s[0]] + a, b)
  }

  /** The full name keeps both names whole: when the first name has no
      space, splitting the full name at its first space gives the two names
      back, and the full name is one character longer than the two. */
  lemma {:induction false} FullNameRoundTrip(id: Id, c: Contact)
    requires ' ' !in c.firstName
    ensures SplitAtFirstSpace(AddFullName(id, c).fullName) == (c.firstName, c.lastName)
    ensures |AddFullName(id, c).fullName| == |c.firstName| + |c.lastName| + 1
    ensures AddFullName(id, c).contact == c && AddFullName(id, c).id == id
  {
    SplitJoined(c.firstName, c.lastName);
  }

  lemma {:induction false} SplitJoined(f: string, l: string)
    requires ' ' !in f
    ensures SplitAtFirstSpace(f + " " + l) == (f, l)
    decreases |f|
  {
    var s := f + " " + l;
    if f == [] {
      assert s[0] == ' ' && s[1..] == l;
    } else {
      assert s[0] == f[0] && s[0] != ' ';
      assert s[1..] == f[1..] + " " + l;
      SplitJoined(f[1..], l);
      assert [f[0]] + f[1..] == f;
    }
  }

  // ---- reads ----

  /** The rows `findAll` lists: live, and of the given status and company
      when those filters are truthy. */
  function ContactsMatching(contacts: map<Id, Contact>, status: Option<string>, companyId: Option<Id>): set<Id> {
    set id | id in contacts && contacts[id].Live()
      && (Given(status) ==> contacts[id].status == status.value)
      && (Given(companyId) ==> contacts[id].companyId == companyId)
  }

  function ViewsOf(rows: seq<(Id, Contact)>): (r: seq<ContactView>)
    ensures |r| == |rows|
    ensures forall k :: 0 <= k < |r| ==> r[k] == AddFullName(rows[k].0, rows[k].1)
  {
    seq(|rows|, k requires 0 <= k < |rows| => AddFullName(rows[k].0, rows[k].1))
  }

  /** Every view shown is a live contact's, with its full name, and passes
      the truthy filters. */
  predicate ShowsMatching(contacts: map<Id, Contact>, status: Option<string>, companyId: Option<Id>, views: seq<ContactView>) {
    forall k :: 0 <= k < |views| ==>
      var v := views[k];
      v.id in contacts && contacts[v.id].Live() && v == AddFullName(v.id, contacts[v.id])
      && (Given(status) ==> v.contact.status == status.value)
      && (Given(companyId) ==> v.contact.companyId == companyId)
  }

  /** The query of `findAll` once the store accepts its filters: a page of
      the matching live contacts, each with its full name, and a meta that
      counts exactly the matching rows. */
  function MatchingPage(contacts: map<Id, Contact>, page: int, limit: int, status: Option<string>, companyId: Option<Id>, ordered: seq<Id>): (r: Listing<ContactView>)
    requires page >= 1 && limit >= 1
    requires Lists(ordered, ContactsMatching(contacts, status, companyId))
    ensures r.meta == Meta(page, limit, |ContactsMatching(contacts, status, companyId)|)
    ensures |r.data| <= limit
    ensures r.data == ViewsOf(RowsOf(contacts, Page(ordered, page, limit)))
    ensures ShowsMatching(contacts, status, companyId, r.data)
  {
    var s := ContactsMatching(contacts, status, companyId);
    ListedPage(ordered, s, page, limit);
    var rows := ListTable(contacts, s, page, limit, ordered);
    Listing(ViewsOf(rows.data), rows.meta)
  }

  /** `findAll`: the query string `status` goes to the store unchecked, so
      a truthy status that is none of `statusNames` (the schema's
      `ContactStatus` names) is the store's validation error; otherwise
      `MatchingPage`. */
  function FindAll(contacts: map<Id, Contact>, page: int, limit: int, status: Option<string>, companyId: Option<Id>, statusNames: set<string>, ordered: seq<Id>): (r: Result<Listing<ContactView>>)
    requires page >= 1 && limit >= 1
    requires Lists(ordered, ContactsMatching(contacts, status, companyId))
    ensures r.Err? <==> Given(status) && status.value !in statusNames
    ensures r.Err? ==> r.error == StoreFailure(INVALID_ENUM_VALUE)
    ensures r.Ok? ==> r.value.meta == Meta(page, limit, |ContactsMatching(contacts, status, companyId)|)
    ensures r.Ok? ==> |r.value.data| <= limit
    ensures r.Ok? ==> r.value.data == ViewsOf(RowsOf(contacts, Page(ordered, page, limit)))
    ensures r.Ok? ==> ShowsMatching(contacts, status, companyId, r.value.data)
  {
    if Given(status) && status.value !in statusNames then Err(StoreFailure(INVALID_ENUM_VALUE))
    else Ok(MatchingPage(contacts, page, limit, status, companyId, ordered))
  }

  /** `findOne`: a live contact with its full name, or NotFound. */
  function FindOne(contacts: map<Id, Contact>, id: Id): (r: Result<ContactView>)
    ensures r.Ok? <==> LiveContact(contacts, id)
    ensures r.Ok? ==> r.value == AddFullName(id, contacts[id])
    ensures r.Err? ==> r.error == NotFound(CONTACT_NOT_FOUND)
  {
    if LiveContact(contacts, id) then Ok(AddFullName(id, contacts[id])) else Err(NotFound(CONTACT_NOT_FOUND))
  }

  /** The activities of a contact: every one that names it. */
  function ActivitiesOfContact(activities: map<Id, Activity>, contactId: Id): set<Id> {
    set a | a in activities && activities[a].contactId == Some(contactId)
  }

  /** The deals of a contact: the live ones that name it. */
  function DealsOfContact(deals: map<Id, Deal>, contactId: Id): set<Id> {
    set d | d in deals && deals[d].contactId == Some(contactId) && deals[d].Live()
  }

  /** `getContactActivities`: NotFound unless the contact is live; then a
      page of all activities naming it (activities have no soft delete). */
  function ContactActivities(contacts: map<Id, Contact>, activities: map<Id, Activity>, id: Id, page: int, limit: int, ordered: seq<Id>): (r: Result<Listing<(Id, Activity)>>)
    requires page >= 1 && limit >= 1
    requires Lists(ordered, ActivitiesOfContact(activities, id))
    ensures r.Err? <==> !LiveContact(contacts, id)
    ensures r.Err? ==> r.error == NotFound(CONTACT_NOT_FOUND)
    ensures r.Ok? ==> r.value.meta == Meta(page, limit, |ActivitiesOfContact(activities, id)|)
    ensures r.Ok? ==> r.value.data == RowsOf(activities, Page(ordered, page, limit))
    ensures r.Ok? ==> (forall k :: 0 <= k < |r.value.data| ==>
      r.value.data[k].0 in activities && r.value.data[k].1.contactId == Some(id))
  {
    if !LiveContact(contacts, id) then Err(NotFound(CONTACT_NOT_FOUND))
    else Ok(ListTable(activities, ActivitiesOfContact(activities, id), page, limit, ordered))
  }

  /** `getContactDeals`: NotFound unless the contact is live; then a page of
      its live deals. */
  function ContactDeals(contacts: map<Id, Contact>, deals: map<Id, Deal>, id: Id, page: int, limit: int, ordered: seq<Id>): (r: Result<Listing<(Id, Deal)>>)
    requires page >= 1 && limit >= 1
    requires Lists(ordered, DealsOfContact(deals, id))
    ensures r.Err? <==> !LiveContact(contacts, id)
    ensures r.Err? ==> r.error == NotFound(CONTACT_NOT_FOUND)
    ensures r.Ok? ==> r.value.meta == Meta(page, limit, |DealsOfContact(deals, id)|)
    ensures r.Ok? ==> r.value.data == RowsOf(deals, Page(ordered, page, limit))
    ensures r.Ok? ==> (forall k :: 0 <= k < |r.value.data| ==>
      r.value.data[k].0 in deals && r.value.data[k].1.contactId == Some(id) && r.value.data[k].1.Live())
  {
    if !LiveContact(contacts, id) then Err(NotFound(CONTACT_NOT_FOUND))
    else Ok(ListTable(deals, DealsOfContact(deals, id), page, limit, ordered))
  }

  // ---- writes, as steps ----

  /** Some live contact holds the email. */
  predicate LiveEmailHolder(contacts: map<Id, Contact>, email: string, except: Option<Id>) {
    exists k :: k in contacts && contacts[k].email == email && contacts[k].Live() && Some(k) != except
  }

  /** Some row, live or not, other than `except` holds the email. */
  predicate EmailHolder(contacts: map<Id, Contact>, email: string, except: Option<Id>) {
    exists k :: k in contacts && contacts[k].email == email && Some(k) != except
  }

  /** A truthy company reference must name a live company. */
  predicate CompanyRefOk(companies: map<Id, Company>, companyId: Option<Id>) {
    Given(companyId) ==> LiveCompany(companies, companyId.value)
  }

  function NewContact(dto: CreateContactDto, defaultStatus: string, now: Time): Contact {
    Contact(dto.firstName, dto.lastName, dto.email, dto.phone, dto.title,
            dto.status.GetOr(defaultStatus), dto.companyId, dto.notes, now, None)
  }

  /** `create`: a conflict only for a live holder of the email; then the
      company check; then the insert, which the unique index on email
      refuses when a soft-deleted contact still holds it. */
  function CreateStep(contacts: map<Id, Contact>, companies: map<Id, Company>, dto: CreateContactDto, defaultStatus: string, id: Id, now: Time): Step<ContactView, map<Id, Contact>>
    requires NonEmptyIfPresent(dto.companyId)
  {
    if LiveEmailHolder(contacts, dto.email, None) then Step(Err(Conflict(CONTACT_EXISTS)), contacts)
    else if !CompanyRefOk(companies, dto.companyId) then Step(Err(NotFound(COMPANY_NOT_FOUND)), contacts)
    else if EmailHolder(contacts, dto.email, None) then Step(Err(StoreFailure(UNIQUE_VIOLATION)), contacts)
    else
      var c := NewContact(dto, defaultStatus, now);
      Step(Ok(AddFullName(id, c)), contacts[id := c])
  }

  /** The fields `update` writes: those the DTO carries. */
  function ApplyUpdate(c: Contact, dto: UpdateContactDto): Contact {
    c.(firstName := dto.firstName.GetOr(c.firstName),
       lastName := dto.lastName.GetOr(c.lastName),
       email := dto.email.GetOr(c.email),
       phone := if dto.phone.Some? then dto.phone else c.phone,
       title := if dto.title.Some? then dto.title else c.title,
       status := dto.status.GetOr(c.status),
       companyId := if dto.companyId.Some? then dto.companyId else c.companyId,
       notes := if dto.notes.Some? then dto.notes else c.notes)
  }

  /** `update`: NotFound for a missing or deleted contact; a conflict when a
      new email is held by another live contact; the company check; then
      the write, which the unique index refuses when a soft-deleted contact
      holds the email. */
  function UpdateStep(contacts: map<Id, Contact>, companies: map<Id, Company>, id: Id, dto: UpdateContactDto): Step<ContactView, map<Id, Contact>>
    requires NonEmptyIfPresent(dto.companyId)
  {
    if !LiveContact(contacts, id) then Step(Err(NotFound(CONTACT_NOT_FOUND)), contacts)
    else if Given(dto.email) && LiveEmailHolder(contacts, dto.email.value, Some(id)) then
      Step(Err(Conflict(CONTACT_EXISTS)), contacts)
    else if !CompanyRefOk(companies, dto.companyId) then Step(Err(NotFound(COMPANY_NOT_FOUND)), contacts)
    else
      var c := ApplyUpdate(contacts[id], dto);
      if EmailHolder(contacts, c.email, Some(id)) then Step(Err(StoreFailure(UNIQUE_VIOLATION)), contacts)
      else Step(Ok(AddFullName(id, c)), contacts[id := c])
  }

  function RemoveStep(contacts: map<Id, Contact>, id: Id, now: Time): Step<(), map<Id, Contact>> {
    if !LiveContact(contacts, id) then Step(Err(NotFound(CONTACT_NOT_FOUND)), contacts)
    else Step(Ok(()), contacts[id := contacts[id].(deletedAt := Some(now))])
  }

  // ---- the service ----

  /** `ContactsService`; `defaultStatus` is the schema's default status. */
  class ContactsService {
    const db: Database
    const defaultStatus: string

    constructor (db: Database, defaultStatus: string)
      ensures this.db == db && this.defaultStatus == defaultStatus
    {
      this.db := db;
      this.defaultStatus := defaultStatus;
    }

    method Create(dto: CreateContactDto, id: Id, now: Time) returns (r: Result<ContactView>)
      requires db.Valid() && id !in db.contacts
      requires NonEmptyIfPresent(dto.companyId)
      modifies db`contacts
      ensures db.Valid()
      ensures Step(r, db.contacts) == CreateStep(old(db.contacts), db.companies, dto, defaultStatus, id, now)
    {
      if LiveEmailHolder(db.contacts, dto.email, None) {
        return Err(Conflict(CONTACT_EXISTS));
      }
      if Given(dto.companyId) && !LiveCompany(db.companies, dto.companyId.value) {
        return Err(NotFound(COMPANY_NOT_FOUND));
      }
      if EmailHolder(db.contacts, dto.email, None) {
        return Err(StoreFailure(UNIQUE_VIOLATION));
      }
      var contact := NewContact(dto, defaultStatus, now);
      db.contacts := db.contacts[id := contact];
      r := Ok(AddFullName(id, contact));
    }

    method Update(id: Id, dto: UpdateContactDto) returns (r: Result<ContactView>)
      requires db.Valid()
      requires NonEmptyIfPresent(dto.companyId)
      modifies db`contacts
      ensures db.Valid()
      ensures Step(r, db.contacts) == UpdateStep(old(db.contacts), db.companies, id, dto)
    {
      var existing := FindOne(db.contacts, id);
      if existing.Err? {
        return Err(existing.error);
      }
      if Given(dto.email) && LiveEmailHolder(db.contacts, dto.email.value, Some(id)) {
        return Err(Conflict(CONTACT_EXISTS));
      }
      if Given(dto.companyId) && !LiveCompany(db.companies, dto.companyId.value) {
        return Err(NotFound(COMPANY_NOT_FOUND));
      }
      var contact := ApplyUpdate(db.contacts[id], dto);
      if EmailHolder(db.contacts, contact.email, Some(id)) {
        return Err(StoreFailure(UNIQUE_VIOLATION));
      }
      db.contacts := db.contacts[id := contact];
      r := Ok(AddFullName(id, contact));
    }

    method Remove(id: Id, now: Time) returns (r: Result<()>)
      requires db.Valid()
      modifies db`contacts
      ensures db.Valid()
      ensures Step(r, db.contacts) == RemoveStep(old(db.contacts), id, now)
    {
      var existing := FindOne(db.contacts, id);
      if existing.Err? {
        return Err(existing.error);
      }
      db.contacts := db.contacts[id := db.contacts[id].(deletedAt := Some(now))];
      r := Ok(());
    }
  }

  // ---- properties ----

  /** Creation: a conflict exactly when a live contact holds the email; a
      soft-deleted holder is no conflict but makes the insert fail in the
      store; a truthy companyId must name a live company; a successful
      create adds one row carrying the DTO's fields and nothing else
      changes. */
  lemma CreateOutcomes(contacts: map<Id, Contact>, companies: map<Id, Company>, dto: CreateContactDto, defaultStatus: string, id: Id, now: Time)
    requires NonEmptyIfPresent(dto.companyId) && id !in contacts
    ensures var s := CreateStep(contacts, companies, dto, defaultStatus, id, now);
      (s.result == Err(Conflict(CONTACT_EXISTS)) <==> LiveEmailHolder(contacts, dto.email, None))
      && (s.result == Err(NotFound(COMPANY_NOT_FOUND)) <==>
            !LiveEmailHolder(contacts, dto.email, None) && dto.companyId.Some? && !LiveCompany(companies, dto.companyId.value))
      && (s.result == Err(StoreFailure(UNIQUE_VIOLATION)) <==>
            !LiveEmailHolder(contacts, dto.email, None) && CompanyRefOk(companies, dto.companyId)
            && EmailHolder(contacts, dto.email, None))
      && (s.result.Err? ==> s.state == contacts)
      && (s.result.Ok? ==>
            s.state == contacts[id := s.result.value.contact]
            && s.result.value.contact.email == dto.email
            && s.result.value.contact.companyId == dto.companyId
            && s.result.value.contact.Live())
  {
  }

  /** Every successful create or update leaves contact emails unique. */
  lemma {:induction false} WritesKeepEmailsUnique(contacts: map<Id, Contact>, companies: map<Id, Company>, createDto: CreateContactDto, defaultStatus: string, newId: Id, now: Time, id: Id, updateDto: UpdateContactDto)
    requires UniqueContactEmails(contacts) && newId !in contacts
    requires NonEmptyIfPresent(createDto.companyId) && NonEmptyIfPresent(updateDto.companyId)
    ensures UniqueContactEmails(CreateStep(contacts, companies, createDto, defaultStatus, newId, now).state)
    ensures UniqueContactEmails(UpdateStep(contacts, companies, id, updateDto).state)
    ensures UniqueContactEmails(RemoveStep(contacts, id, now).state)
  {
    var c := CreateStep(contacts, companies, createDto, defaultStatus, newId, now);
    if c.result.Ok? {
      assert forall k | k in contacts :: contacts[k].email != createDto.email;
      assert c.state == contacts[newId := NewContact(createDto, defaultStatus, now)];
    }
    var u := UpdateStep(contacts, companies, id, updateDto);
    if u.result.Ok? {
      var row := ApplyUpdate(contacts[id], updateDto);
      assert forall k | k in contacts && k != id :: contacts[k].email != row.email;
      assert u.state == contacts[id := row];
    }
  }

  /** Updating: NotFound for a missing or deleted contact; a truthy new
      email conflicts exactly when another live contact holds it, so a
      contact keeping its own email never conflicts with itself; past the
      conflict check, a truthy companyId naming no live company is
      NotFound; past that, the store refuses the write exactly when another
      row, soft-deleted, holds the resulting email; success rewrites this
      row only, each field the body carries written and every other kept. */
  lemma UpdateOutcomes(contacts: map<Id, Contact>, companies: map<Id, Company>, id: Id, dto: UpdateContactDto)
    requires NonEmptyIfPresent(dto.companyId)
    ensures var s := UpdateStep(contacts, companies, id, dto);
      (s.result == Err(NotFound(CONTACT_NOT_FOUND)) <==> !LiveContact(contacts, id))
      && (LiveContact(contacts, id) ==>
            (s.result == Err(Conflict(CONTACT_EXISTS)) <==>
               Given(dto.email) && LiveEmailHolder(contacts, dto.email.value, Some(id))))
      && (LiveContact(contacts, id) && dto.email == Some(contacts[id].email) && UniqueContactEmails(contacts) ==>
            s.result != Err(Conflict(CONTACT_EXISTS)))
      && (LiveContact(contacts, id) && !(Given(dto.email) && LiveEmailHolder(contacts, dto.email.value, Some(id))) ==>
            (s.result == Err(NotFound(COMPANY_NOT_FOUND)) <==> !CompanyRefOk(companies, dto.companyId)))
      && (LiveContact(contacts, id) && !(Given(dto.email) && LiveEmailHolder(contacts, dto.email.value, Some(id)))
          && CompanyRefOk(companies, dto.companyId) ==>
            (s.result == Err(StoreFailure(UNIQUE_VIOLATION)) <==> EmailHolder(contacts, ApplyUpdate(contacts[id], dto).email, Some(id)))
            && (s.result.Ok? <==> !EmailHolder(contacts, ApplyUpdate(contacts[id], dto).email, Some(id))))
      && (s.result.Err? ==> s.state == contacts)
    ensures var s := UpdateStep(contacts, companies, id, dto);
      s.result.Ok? ==>
        var v, c := s.result.value.contact, contacts[id];
        s.state == contacts[id := v] && s.result.value == AddFullName(id, v)
        && v.createdAt == c.createdAt && v.deletedAt == c.deletedAt
            && (dto.firstName.Some? ==> v.firstName == dto.firstName.value) && (dto.firstName.None? ==> v.firstName == c.firstName)
            && (dto.lastName.Some? ==> v.lastName == dto.lastName.value) && (dto.lastName.None? ==> v.lastName == c.lastName)
            && (dto.email.Some? ==> v.email == dto.email.value) && (dto.email.None? ==> v.email == c.email)
            && (dto.phone.Some? ==> v.phone == dto.phone) && (dto.phone.None? ==> v.phone == c.phone)
            && (dto.title.Some? ==> v.title == dto.title) && (dto.title.None? ==> v.title == c.title)
            && (dto.status.Some? ==> v.status == dto.status.value) && (dto.status.None? ==> v.status == c.status)
            && (dto.companyId.Some? ==> v.companyId == dto.companyId) && (dto.companyId.None? ==> v.companyId == c.companyId)
            && (dto.notes.Some? ==> v.notes == dto.notes) && (dto.notes.None? ==> v.notes == c.notes)
  {
  }

  /** `remove` only stamps `deletedAt`; afterwards the contact is not found
      and cannot be removed again, while its row and every other row stay. */
  lemma RemoveIsSoft(contacts: map<Id, Contact>, id: Id, now: Time, later: Time)
    requires LiveContact(contacts, id)
    ensures var s := RemoveStep(contacts, id, now).state;
      s.Keys == contacts.Keys && (forall k :: k in contacts && k != id ==> s[k] == contacts[k])
      && s[id] == contacts[id].(deletedAt := Some(now))
      && FindOne(s, id) == Err(NotFound(CONTACT_NOT_FOUND))
      && RemoveStep(s, id, later) == Step(Err(NotFound(CONTACT_NOT_FOUND)), s)
  {
  }

  /** A removed contact's email cannot be taken by a new contact: the
      conflict check lets it through and the store's unique index refuses
      it with an internal error. */
  lemma {:induction false} DeletedEmailStillTaken(contacts: map<Id, Contact>, companies: map<Id, Company>, id: Id, now: Time, dto: CreateContactDto, defaultStatus: string, newId: Id, later: Time)
    requires UniqueContactEmails(contacts) && LiveContact(contacts, id)
    requires dto.email == contacts[id].email && dto.companyId.None?
    ensures var s := RemoveStep(contacts, id, now).state;
      CreateStep(s, companies, dto, defaultStatus, newId, later).result == Err(StoreFailure(UNIQUE_VIOLATION))
  {
    var s := RemoveStep(contacts, id, now).state;
    assert s[id].email == dto.email;
    assert !LiveEmailHolder(s, dto.email, None);
    assert EmailHolder(s, dto.email, None);
  }
}
