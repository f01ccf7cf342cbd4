/** The companies service: unconditional creation, the soft-delete-aware
    listing and lookup, update, the soft delete that leaves the company's
    contacts and deals as they are, and the company's contacts and deals. */
module Companies {
  import opened Common
  import opened Entities
  import opened Dtos
  import opened Pagination
  import Contacts
  import Deals

  const COMPANY_NOT_FOUND := "Company not found"

  // ---- reads ----

  function LiveCompanyIds(companies: map<Id, Company>): set<Id> {
    set id | id in companies && companies[id].Live()
  }

  /** `findAll`: a page of the live companies and a meta that counts them. */
  function FindAll(companies: map<Id, Company>, page: int, limit: int, ordered: seq<Id>): (r: Listing<(Id, Company)>)
    requires page >= 1 && limit >= 1
    requires Lists(ordered, LiveCompanyIds(companies))
    ensures r.meta == Meta(page, limit, |LiveCompanyIds(companies)|)
    ensures |r.data| <= limit
    ensures r.data == RowsOf(companies, Page(ordered, page, limit))
    ensures forall k :: 0 <= k < |r.data| ==>
      r.data[k].0 in companies && r.data[k].1 == companies[r.data[k].0] && r.data[k].1.Live()
  {
    ListTable(companies, LiveCompanyIds(companies), page, limit, ordered)
  }

  /** `findOne`: a live company, or NotFound. */
  function FindOne(companies: map<Id, Company>, id: Id): (r: Result<Company>)
    ensures r.Ok? <==> LiveCompany(companies, id)
    ensures r.Ok? ==> r.value == companies[id]
    ensures r.Err? ==> r.error == NotFound(COMPANY_NOT_FOUND)
  {
    if LiveCompany(companies, id) then Ok(companies[id]) else Err(NotFound(COMPANY_NOT_FOUND))
  }

  /** The company's live contacts. */
  function ContactsOfCompany(contacts: map<Id, Contact>, companyId: Id): set<Id> {
    set c | c in contacts && contacts[c].companyId == Some(companyId) && contacts[c].Live()
  }

  /** The company's live deals. */
  function DealsOfCompany(deals: map<Id, Deal>, companyId: Id): set<Id> {
    set d | d in deals && deals[d].companyId == Some(companyId) && deals[d].Live()
  }

  /** `getCompanyContacts`: NotFound unless the company is live; then a page
      of its live contacts, counted by the same filter. */
  function CompanyContacts(companies: map<Id, Company>, contacts: map<Id, Contact>, id: Id, page: int, limit: int, ordered: seq<Id>): (r: Result<Listing<(Id, Contact)>>)
    requires page >= 1 && limit >= 1
    requires Lists(ordered, ContactsOfCompany(contacts, id))
    ensures r.Err? <==> !LiveCompany(companies, id)
    ensures r.Err? ==> r.error == NotFound(COMPANY_NOT_FOUND)
    ensures r.Ok? ==> r.value.meta == Meta(page, limit, |ContactsOfCompany(contacts, id)|)
    ensures r.Ok? ==> r.value.data == RowsOf(contacts, Page(ordered, page, limit))
    ensures r.Ok? ==> (forall k :: 0 <= k < |r.value.data| ==>
      r.value.data[k].0 in contacts && r.value.data[k].1.companyId == Some(id) && r.value.data[k].1.Live())
  {
    if !LiveCompany(companies, id) then Err(NotFound(COMPANY_NOT_FOUND))
    else Ok(ListTable(contacts, ContactsOfCompany(contacts, id), page, limit, ordered))
  }

  /** `getCompanyDeals`: NotFound unless the company is live; then a page of
      its live deals. */
  function CompanyDeals(companies: map<Id, Company>, deals: map<Id, Deal>, id: Id, page: int, limit: int, ordered: seq<Id>): (r: Result<Listing<(Id, Deal)>>)
    requires page >= 1 && limit >= 1
    requires Lists(ordered, DealsOfCompany(deals, id))
    ensures r.Err? <==> !LiveCompany(companies, id)
    ensures r.Err? ==> r.error == NotFound(COMPANY_NOT_FOUND)
    ensures r.Ok? ==> r.value.meta == Meta(page, limit, |DealsOfCompany(deals, id)|)
    ensures r.Ok? ==> r.value.data == RowsOf(deals, Page(ordered, page, limit))
    ensures r.Ok? ==> (forall k :: 0 <= k < |r.value.data| ==>
      r.value.data[k].0 in deals && r.value.data[k].1.companyId == Some(id) && r.value.data[k].1.Live())
  {
    if !LiveCompany(companies, id) then Err(NotFound(COMPANY_NOT_FOUND))
    else Ok(ListTable(deals, DealsOfCompany(deals, id), page, limit, ordered))
  }

  // ---- writes, as steps ----

  function NewCompany(dto: CreateCompanyDto, now: Time): Company {
    Company(dto.name, dto.industry, dto.website, dto.address, dto.phone, dto.notes, now, None)
  }

  /** `create`: no check at all; the row is written as given. */
  function CreateStep(companies: map<Id, Company>, dto: CreateCompanyDto, id: Id, now: Time): Step<Company, map<Id, Company>> {
    var c := NewCompany(dto, now);
    Step(Ok(c), companies[id := c])
  }

  /** The fields `update` writes: those the DTO carries. */
  function ApplyUpdate(c: Company, dto: UpdateCompanyDto): Company {
    c.(name := dto.name.GetOr(c.name),
       industry := if dto.industry.Some? then dto.industry else c.industry,
       website := if dto.website.Some? then dto.website else c.website,
       address := if dto.address.Some? then dto.address else c.address,
       phone := if dto.phone.Some? then dto.phone else c.phone,
       notes := if dto.notes.Some? then dto.notes else c.notes)
  }

  function UpdateStep(companies: map<Id, Company>, id: Id, dto: UpdateCompanyDto): Step<Company, map<Id, Company>> {
    if !LiveCompany(companies, id) then Step(Err(NotFound(COMPANY_NOT_FOUND)), companies)
    else
      var c := ApplyUpdate(companies[id], dto);
      Step(Ok(c), companies[id := c])
  }

  function RemoveStep(companies: map<Id, Company>, id: Id, now: Time): Step<(), map<Id, Company>> {
    if !LiveCompany(companies, id) then Step(Err(NotFound(COMPANY_NOT_FOUND)), companies)
    else Step(Ok(()), companies[id := companies[id].(deletedAt := Some(now))])
  }

  // ---- the service ----

  class CompaniesService {
    const db: Database

    constructor (db: Database)
      ensures this.db == db
    {
      this.db := db;
    }

    method Create(dto: CreateCompanyDto, id: Id, now: Time) returns (r: Result<Company>)
      modifies db`companies
      ensures Step(r, db.companies) == CreateStep(old(db.companies), dto, id, now)
    {
      var company := NewCompany(dto, now);
      db.companies := db.companies[id := company];
      r := Ok(company);
    }

    method Update(id: Id, dto: UpdateCompanyDto) returns (r: Result<Company>)
      modifies db`companies
      ensures Step(r, db.companies) == UpdateStep(old(db.companies), id, dto)
    {
      var existing := FindOne(db.companies, id);
      if existing.Err? {
        return Err(existing.error);
      }
      var company := ApplyUpdate(existing.value, dto);
      db.companies := db.companies[id := company];
      r := Ok(company);
    }

    /** The soft delete writes the company's row alone: the contacts and
        deals that name it are left as they are. */
    method Remove(id: Id, now: Time) returns (r: Result<()>)
      modifies db`companies
      ensures Step(r, db.companies) == RemoveStep(old(db.companies), id, now)
      ensures db.contacts == old(db.contacts) && db.deals == old(db.deals)
    {
      var existing := FindOne(db.companies, id);
      if existing.Err? {
        return Err(existing.error);
      }
      db.companies := db.companies[id := existing.value.(deletedAt := Some(now))];
      r := Ok(());
    }
  }

  // ---- properties ----

  /** `create` always succeeds and adds exactly the given row, live. */
  lemma CreateAlwaysAdds(companies: map<Id, Company>, dto: CreateCompanyDto, id: Id, now: Time)
    ensures var s := CreateStep(companies, dto, id, now);
      s.result.Ok? && s.state == companies[id := s.result.value]
      && s.result.value.name == dto.name && s.result.value.phone == dto.phone && s.result.value.Live()
      && FindOne(s.state, id) == Ok(s.result.value)
  {
  }

  /** `findOne`, `update`, `remove` and the two sub-listings refuse a
      missing or deleted company with NotFound and change nothing. */
  lemma MissingOrDeletedIsNotFound(companies: map<Id, Company>, contacts: map<Id, Contact>, deals: map<Id, Deal>, id: Id, dto: UpdateCompanyDto, now: Time, page: int, limit: int, contactOrder: seq<Id>, dealOrder: seq<Id>)
    requires !LiveCompany(companies, id)
    requires page >= 1 && limit >= 1
    requires Lists(contactOrder, ContactsOfCompany(contacts, id)) && Lists(dealOrder, DealsOfCompany(deals, id))
    ensures FindOne(companies, id) == Err(NotFound(COMPANY_NOT_FOUND))
    ensures UpdateStep(companies, id, dto) == Step(Err(NotFound(COMPANY_NOT_FOUND)), companies)
    ensures RemoveStep(companies, id, now) == Step(Err(NotFound(COMPANY_NOT_FOUND)), companies)
    ensures CompanyContacts(companies, contacts, id, page, limit, contactOrder) == Err(NotFound(COMPANY_NOT_FOUND))
    ensures CompanyDeals(companies, deals, id, page, limit, dealOrder) == Err(NotFound(COMPANY_NOT_FOUND))
  {
  }

  /** `update` on a live company rewrites that row only: each field the
      body carries is written, every other field is kept, and so are the
      row's creation time and liveness. */
  lemma UpdateKeepsTheRest(companies: map<Id, Company>, id: Id, dto: UpdateCompanyDto)
    requires LiveCompany(companies, id)
    ensures var s := UpdateStep(companies, id, dto);
      var v, c := s.result.value, companies[id];
      s.result.Ok? && s.state == companies[id := v]
      && v.createdAt == c.createdAt && v.deletedAt == c.deletedAt && v.Live()
      && (dto.name.Some? ==> v.name == dto.name.value) && (dto.name.None? ==> v.name == c.name)
      && (dto.industry.Some? ==> v.industry == dto.industry) && (dto.industry.None? ==> v.industry == c.industry)
      && (dto.website.Some? ==> v.website == dto.website) && (dto.website.None? ==> v.website == c.website)
      && (dto.address.Some? ==> v.address == dto.address) && (dto.address.None? ==> v.address == c.address)
      && (dto.phone.Some? ==> v.phone == dto.phone) && (dto.phone.None? ==> v.phone == c.phone)
      && (dto.notes.Some? ==> v.notes == dto.notes) && (dto.notes.None? ==> v.notes == c.notes)
  {
  }

  /** After a company is removed its contacts and deals still name it, but
      nothing new can: creating a contact or a deal that names it is
      NotFound. */
  lemma RemovedCompanyKeepsItsReferences(
    companies: map<Id, Company>, contacts: map<Id, Contact>, deals: map<Id, Deal>, id: Id, now: Time,
    contactDto: CreateContactDto, defaultStatus: string, contactId: Id,
    dealDto: CreateDealDto, userId: Id, defaultStage: Enums.DealStage, defaultProbability: int, dealId: Id)
    requires LiveCompany(companies, id)
    requires contactDto.companyId == Some(id) && id != ""
    requires !Contacts.LiveEmailHolder(contacts, contactDto.email, None)
    requires dealDto.companyId == Some(id) && dealDto.contactId.None?
    ensures var s := RemoveStep(companies, id, now).state;
      !LiveCompany(s, id) && id in s
      && Contacts.CreateStep(contacts, s, contactDto, defaultStatus, contactId, now).result == Err(NotFound(Contacts.COMPANY_NOT_FOUND))
      && Deals.CreateStep(deals, contacts, s, dealDto, userId, defaultStage, defaultProbability, dealId, now).result == Err(NotFound(Deals.COMPANY_NOT_FOUND))
  {
  }

  /** `remove` only stamps `deletedAt`; the company drops out of the
      listing and every other row stays. */
  lemma RemoveIsSoft(companies: map<Id, Company>, id: Id, now: Time)
    requires LiveCompany(companies, id)
    ensures var s := RemoveStep(companies, id, now).state;
      s.Keys == companies.Keys && (forall k :: k in companies && k != id ==> s[k] == companies[k])
      && s[id] == companies[id].(deletedAt := Some(now))
      && LiveCompanyIds(s) == LiveCompanyIds(companies) - {id}
  {
  }
}
