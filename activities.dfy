/** The activities service: creation and update with the contact and deal
    checks and the caller as author, the filtered listing (activities have
    no soft delete), the hard delete, completion, and the caller's upcoming
    and overdue lists. */
module Activities {
  import opened Common
  import opened Entities
  import opened Dtos
  import opened Pagination

  const ACTIVITY_NOT_FOUND := "Activity not found"
  const CONTACT_NOT_FOUND := "Contact not found"
  const DEAL_NOT_FOUND := "Deal not found"

  // ---- reads ----

  /** The rows `findAll` lists: every activity, narrowed by each truthy
      filter of type, contact and deal. */
  function ActivitiesMatching(activities: map<Id, Activity>, kind: Option<string>, contactId: Option<Id>, dealId: Option<Id>): set<Id> {
    set id | id in activities
      && (Given(kind) ==> activities[id].kind == kind.value)
      && (Given(contactId) ==> activities[id].contactId == contactId)
      && (Given(dealId) ==> activities[id].dealId == dealId)
  }

  /** Every row shown is an activity of the table, and passes the truthy
      filters. */
  predicate ShowsMatching(activities: map<Id, Activity>, kind: Option<string>, contactId: Option<Id>, dealId: Option<Id>, rows: seq<(Id, Activity)>) {
    forall k :: 0 <= k < |rows| ==>
      var (id, a) := rows[k];
      id in activities && a == activities[id]
      && (Given(kind) ==> a.kind == kind.value)
      && (Given(contactId) ==> a.contactId == contactId)
      && (Given(dealId) ==> a.dealId == dealId)
  }

  /** `findAll`: the query string `type` goes to the store unchecked, so a
      truthy type that is none of `typeNames` (the schema's `ActivityType`
      names) is the store's validation error; otherwise a page of the
      matching activities and a meta that counts exactly the matching rows. */
  function FindAll(activities: map<Id, Activity>, page: int, limit: int, kind: Option<string>, contactId: Option<Id>, dealId: Option<Id>, typeNames: set<string>, ordered: seq<Id>): (r: Result<Listing<(Id, Activity)>>)
    requires page >= 1 && limit >= 1
    requires Lists(ordered, ActivitiesMatching(activities, kind, contactId, dealId))
    ensures r.Err? <==> Given(kind) && kind.value !in typeNames
    ensures r.Err? ==> r.error == StoreFailure(INVALID_ENUM_VALUE)
    ensures r.Ok? ==> r.value.meta == Meta(page, limit, |ActivitiesMatching(activities, kind, contactId, dealId)|)
    ensures r.Ok? ==> |r.value.data| <= limit
    ensures r.Ok? ==> r.value.data == RowsOf(activities, Page(ordered, page, limit))
    ensures r.Ok? ==> ShowsMatching(activities, kind, contactId, dealId, r.value.data)
  {
    if Given(kind) && kind.value !in typeNames then Err(StoreFailure(INVALID_ENUM_VALUE))
    else Ok(ListTable(activities, ActivitiesMatching(activities, kind, contactId, dealId), page, limit, ordered))
  }

  /** `findOne`: a lookup by id alone. */
  function FindOne(activities: map<Id, Activity>, id: Id): (r: Result<Activity>)
    ensures r.Ok? <==> id in activities
    ensures r.Ok? ==> r.value == activities[id]
    ensures r.Err? ==> r.error == NotFound(ACTIVITY_NOT_FOUND)
  {
    if id in activities then Ok(activities[id]) else Err(NotFound(ACTIVITY_NOT_FOUND))
  }

  // ---- writes, as steps ----

  /** The reference checks of `create` and `update`, in their order: a
      truthy contactId must name a live contact, then a truthy dealId a
      live deal. */
  function RefCheck(contacts: map<Id, Contact>, deals: map<Id, Deal>, contactId: Option<Id>, dealId: Option<Id>): (e: Option<Error>)
    ensures e.None? <==> (Given(contactId) ==> LiveContact(contacts, contactId.value))
                         && (Given(dealId) ==> LiveDeal(deals, dealId.value))
    ensures e == Some(NotFound(CONTACT_NOT_FOUND)) <==> Given(contactId) && !LiveContact(contacts, contactId.value)
  {
    if Given(contactId) && !LiveContact(contacts, contactId.value) then Some(NotFound(CONTACT_NOT_FOUND))
    else if Given(dealId) && !LiveDeal(deals, dealId.value) then Some(NotFound(DEAL_NOT_FOUND))
    else None
  }

  /** The new row: the DTO's fields, not completed, the caller as author. */
  function NewActivity(dto: CreateActivityDto, userId: Id, now: Time): Activity {
    Activity(dto.kind, dto.subject, dto.description, dto.dueDate, None, dto.contactId, dto.dealId, userId, now)
  }

  function CreateStep(activities: map<Id, Activity>, contacts: map<Id, Contact>, deals: map<Id, Deal>, dto: CreateActivityDto, userId: Id, id: Id, now: Time): Step<Activity, map<Id, Activity>>
    requires NonEmptyIfPresent(dto.contactId) && NonEmptyIfPresent(dto.dealId)
  {
    match RefCheck(contacts, deals, dto.contactId, dto.dealId)
    case Some(e) => Step(Err(e), activities)
    case None =>
      var a := NewActivity(dto, userId, now);
      Step(Ok(a), activities[id := a])
  }

  /** The fields `update` writes: those the DTO carries. */
  function ApplyUpdate(a: Activity, dto: UpdateActivityDto): Activity {
    a.(kind := dto.kind.GetOr(a.kind),
       subject := dto.subject.GetOr(a.subject),
       description := if dto.description.Some? then dto.description else a.description,
       dueDate := if dto.dueDate.Some? then dto.dueDate else a.dueDate,
       contactId := if dto.contactId.Some? then dto.contactId else a.contactId,
       dealId := if dto.dealId.Some? then dto.dealId else a.dealId,
       completedAt := if dto.completedAt.Some? then dto.completedAt else a.completedAt)
  }

  function UpdateStep(activities: map<Id, Activity>, contacts: map<Id, Contact>, deals: map<Id, Deal>, id: Id, dto: UpdateActivityDto): Step<Activity, map<Id, Activity>>
    requires NonEmptyIfPresent(dto.contactId) && NonEmptyIfPresent(dto.dealId)
  {
    if id !in activities then Step(Err(NotFound(ACTIVITY_NOT_FOUND)), activities)
    else match RefCheck(contacts, deals, dto.contactId, dto.dealId)
      case Some(e) => Step(Err(e), activities)
      case None =>
        var a := ApplyUpdate(activities[id], dto);
        Step(Ok(a), activities[id := a])
  }

  /** `remove`: the row is deleted for good; the deleted row is returned. */
  function RemoveStep(activities: map<Id, Activity>, id: Id): Step<Activity, map<Id, Activity>> {
    if id !in activities then Step(Err(NotFound(ACTIVITY_NOT_FOUND)), activities)
    else Step(Ok(activities[id]), activities - {id})
  }

  function MarkCompleteStep(activities: map<Id, Activity>, id: Id, now: Time): Step<Activity, map<Id, Activity>> {
    if id !in activities then Step(Err(NotFound(ACTIVITY_NOT_FOUND)), activities)
    else
      var a := activities[id].(completedAt := Some(now));
      Step(Ok(a), activities[id := a])
  }

  // ---- the service ----

  class ActivitiesService {
    const db: Database

    constructor (db: Database)
      ensures this.db == db
    {
      this.db := db;
    }

    method Create(dto: CreateActivityDto, userId: Id, id: Id, now: Time) returns (r: Result<Activity>)
      requires NonEmptyIfPresent(dto.contactId) && NonEmptyIfPresent(dto.dealId)
      modifies db`activities
      ensures Step(r, db.activities) == CreateStep(old(db.activities), db.contacts, db.deals, dto, userId, id, now)
    {
      if Given(dto.contactId) && !LiveContact(db.contacts, dto.contactId.value) {
        return Err(NotFound(CONTACT_NOT_FOUND));
      }
      if Given(dto.dealId) && !LiveDeal(db.deals, dto.dealId.value) {
        return Err(NotFound(DEAL_NOT_FOUND));
      }
      var activity := NewActivity(dto, userId, now);
      db.activities := db.activities[id := activity];
      r := Ok(activity);
    }

    method Update(id: Id, dto: UpdateActivityDto) returns (r: Result<Activity>)
      requires NonEmptyIfPresent(dto.contactId) && NonEmptyIfPresent(dto.dealId)
      modifies db`activities
      ensures Step(r, db.activities) == UpdateStep(old(db.activities), db.contacts, db.deals, id, dto)
    {
      var existing := FindOne(db.activities, id);
      if existing.Err? {
        return Err(existing.error);
      }
      if Given(dto.contactId) && !LiveContact(db.contacts, dto.contactId.value) {
        return Err(NotFound(CONTACT_NOT_FOUND));
      }
      if Given(dto.dealId) && !LiveDeal(db.deals, dto.dealId.value) {
        return Err(NotFound(DEAL_NOT_FOUND));
      }
      var activity := ApplyUpdate(existing.value, dto);
      db.activities := db.activities[id := activity];
      r := Ok(activity);
    }

    method Remove(id: Id) returns (r: Result<Activity>)
      modifies db`activities
      ensures Step(r, db.activities) == RemoveStep(old(db.activities), id)
    {
      var existing := FindOne(db.activities, id);
      if existing.Err? {
        return Err(existing.error);
      }
      db.activities := db.activities - {id};
      r := Ok(existing.value);
    }

    method MarkComplete(id: Id, now: Time) returns (r: Result<Activity>)
      modifies db`activities
      ensures Step(r, db.activities) == MarkCompleteStep(old(db.activities), id, now)
    {
      var existing := FindOne(db.activities, id);
      if existing.Err? {
        return Err(existing.error);
      }
      var activity := existing.value.(completedAt := Some(now));
      db.activities := db.activities[id := activity];
      r := Ok(activity);
    }
  }

  // ---- upcoming and overdue ----

  /** The caller's open activities that have a due date. */
  function Pending(activities: map<Id, Activity>, userId: Id): set<Id> {
    set id | id in activities && activities[id].userId == userId
      && activities[id].completedAt.None? && activities[id].dueDate.Some?
  }

  /** `getUpcoming`'s filter: the caller's, open, due at or after the start
      of today (`startOfToday` is local midnight, which the clock supplies). */
  function UpcomingIds(activities: map<Id, Activity>, userId: Id, startOfToday: Time): set<Id> {
    set id | id in activities && activities[id].userId == userId && activities[id].completedAt.None?
      && activities[id].dueDate.Some? && activities[id].dueDate.value >= startOfToday
  }

  /** `getOverdue`'s filter: the caller's, open, due before the start of today. */
  function OverdueIds(activities: map<Id, Activity>, userId: Id, startOfToday: Time): set<Id> {
    set id | id in activities && activities[id].userId == userId && activities[id].completedAt.None?
      && activities[id].dueDate.Some? && activities[id].dueDate.value < startOfToday
  }

  /** The ids are in ascending due-date order (`orderBy: { dueDate: 'asc' }`). */
  predicate ByDueDate(activities: map<Id, Activity>, ids: seq<Id>) {
    forall i, j ::
      (0 <= i < j < |ids| && ids[i] in activities && ids[j] in activities
       && activities[ids[i]].dueDate.Some? && activities[ids[j]].dueDate.Some?) ==>
      activities[ids[i]].dueDate.value <= activities[ids[j]].dueDate.value
  }

  /** A due-date-ordered list of rows under `s`: what `getUpcoming` and
      `getOverdue` return, each row one of `s` and the whole of `s` in
      ascending due order. */
  function DueList(activities: map<Id, Activity>, s: set<Id>, ordered: seq<Id>): (r: seq<(Id, Activity)>)
    requires s <= activities.Keys && Lists(ordered, s) && ByDueDate(activities, ordered)
    ensures |r| == |s|
    ensures forall k :: 0 <= k < |r| ==> r[k].0 in s && r[k].1 == activities[r[k].0]
    ensures forall id :: id in s ==> exists k :: 0 <= k < |r| && r[k].0 == id
    ensures forall i, j :: 0 <= i < j < |r| ==> r[i].0 != r[j].0
    ensures forall i, j :: 0 <= i < j < |r| && r[i].1.dueDate.Some? && r[j].1.dueDate.Some? ==>
      r[i].1.dueDate.value <= r[j].1.dueDate.value
  {
    ListsCount(ordered, s);
    assert forall k :: 0 <= k < |ordered| ==> ordered[k] in s by {
      forall k | 0 <= k < |ordered| ensures ordered[k] in s {
        assert ordered[k] in ordered;
      }
    }
    RowsOf(activities, ordered)
  }

  function GetUpcoming(activities: map<Id, Activity>, userId: Id, startOfToday: Time, ordered: seq<Id>): (r: seq<(Id, Activity)>)
    requires Lists(ordered, UpcomingIds(activities, userId, startOfToday)) && ByDueDate(activities, ordered)
    ensures |r| == |UpcomingIds(activities, userId, startOfToday)|
    ensures forall k :: 0 <= k < |r| ==>
      r[k].0 in activities && r[k].1 == activities[r[k].0] && r[k].1.userId == userId
      && r[k].1.completedAt.None? && r[k].1.dueDate.Some? && r[k].1.dueDate.value >= startOfToday
    ensures forall id :: id in UpcomingIds(activities, userId, startOfToday) ==> exists k :: 0 <= k < |r| && r[k].0 == id
    ensures forall i, j :: 0 <= i < j < |r| ==> r[i].0 != r[j].0
    ensures forall i, j :: 0 <= i < j < |r| ==> r[i].1.dueDate.value <= r[j].1.dueDate.value
  {
    DueList(activities, UpcomingIds(activities, userId, startOfToday), ordered)
  }

  function GetOverdue(activities: map<Id, Activity>, userId: Id, startOfToday: Time, ordered: seq<Id>): (r: seq<(Id, Activity)>)
    requires Lists(ordered, OverdueIds(activities, userId, startOfToday)) && ByDueDate(activities, ordered)
    ensures |r| == |OverdueIds(activities, userId, startOfToday)|
    ensures forall k :: 0 <= k < |r| ==>
      r[k].0 in activities && r[k].1 == activities[r[k].0] && r[k].1.userId == userId
      && r[k].1.completedAt.None? && r[k].1.dueDate.Some? && r[k].1.dueDate.value < startOfToday
    ensures forall id :: id in OverdueIds(activities, userId, startOfToday) ==> exists k :: 0 <= k < |r| && r[k].0 == id
    ensures forall i, j :: 0 <= i < j < |r| ==> r[i].0 != r[j].0
    ensures forall i, j :: 0 <= i < j < |r| ==> r[i].1.dueDate.value <= r[j].1.dueDate.value
  {
    DueList(activities, OverdueIds(activities, userId, startOfToday), ordered)
  }

  // ---- properties ----

  /** Upcoming and overdue split the caller's open, dated activities: no
      activity is in both, every one is in one of them, and so the two
      counts add up to the open, dated ones. */
  lemma {:induction false} UpcomingOverduePartition(activities: map<Id, Activity>, userId: Id, startOfToday: Time)
    ensures UpcomingIds(activities, userId, startOfToday) * OverdueIds(activities, userId, startOfToday) == {}
    ensures UpcomingIds(activities, userId, startOfToday) + OverdueIds(activities, userId, startOfToday) == Pending(activities, userId)
    ensures |UpcomingIds(activities, userId, startOfToday)| + |OverdueIds(activities, userId, startOfToday)| == |Pending(activities, userId)|
  {
    var u := UpcomingIds(activities, userId, startOfToday);
    var o := OverdueIds(activities, userId, startOfToday);
    assert u * o == {};
    assert u + o == Pending(activities, userId);
    assert |u + o| == |u| + |o| - |u * o|;
  }

  /** Creation: NotFound for a truthy contactId or dealId that names no
      live row, the contact checked first; otherwise one new open row
      authored by the caller, and nothing else changes. */
  lemma CreateOutcomes(activities: map<Id, Activity>, contacts: map<Id, Contact>, deals: map<Id, Deal>, dto: CreateActivityDto, userId: Id, id: Id, now: Time)
    requires NonEmptyIfPresent(dto.contactId) && NonEmptyIfPresent(dto.dealId)
    ensures var s := CreateStep(activities, contacts, deals, dto, userId, id, now);
      (s.result == Err(NotFound(CONTACT_NOT_FOUND)) <==> dto.contactId.Some? && !LiveContact(contacts, dto.contactId.value))
      && (s.result == Err(NotFound(DEAL_NOT_FOUND)) <==>
            (dto.contactId.Some? ==> LiveContact(contacts, dto.contactId.value))
            && dto.dealId.Some? && !LiveDeal(deals, dto.dealId.value))
      && (s.result.Err? ==> s.state == activities)
      && (s.result.Ok? ==>
            s.state == activities[id := s.result.value]
            && s.result.value.userId == userId && s.result.value.completedAt.None?
            && s.result.value.subject == dto.subject && s.result.value.dueDate == dto.dueDate
            && s.result.value.contactId == dto.contactId && s.result.value.dealId == dto.dealId)
  {
  }

  /** `update` checks existence, then the references (the contact before
      the deal), whose error is the result, and writes only the fields the
      body carries, keeping the author and creation time; every error
      leaves the table unchanged. */
  lemma UpdateOutcomes(activities: map<Id, Activity>, contacts: map<Id, Contact>, deals: map<Id, Deal>, id: Id, dto: UpdateActivityDto)
    requires NonEmptyIfPresent(dto.contactId) && NonEmptyIfPresent(dto.dealId)
    ensures var s := UpdateStep(activities, contacts, deals, id, dto);
      (s.result == Err(NotFound(ACTIVITY_NOT_FOUND)) <==> id !in activities)
      && (id in activities ==> (s.result.Err? <==> RefCheck(contacts, deals, dto.contactId, dto.dealId).Some?))
      && (id in activities && RefCheck(contacts, deals, dto.contactId, dto.dealId).Some? ==>
            s.result == Err(RefCheck(contacts, deals, dto.contactId, dto.dealId).value))
      && (s.result.Err? ==> s.state == activities)
    ensures var s := UpdateStep(activities, contacts, deals, id, dto);
      s.result.Ok? ==>
        var v, a := s.result.value, activities[id];
        RefCheck(contacts, deals, dto.contactId, dto.dealId).None?
        && s.state == activities[id := v]
        && v.userId == a.userId && v.createdAt == a.createdAt
            && (dto.kind.Some? ==> v.kind == dto.kind.value) && (dto.kind.None? ==> v.kind == a.kind)
            && (dto.subject.Some? ==> v.subject == dto.subject.value) && (dto.subject.None? ==> v.subject == a.subject)
            && (dto.description.Some? ==> v.description == dto.description) && (dto.description.None? ==> v.description == a.description)
            && (dto.dueDate.Some? ==> v.dueDate == dto.dueDate) && (dto.dueDate.None? ==> v.dueDate == a.dueDate)
            && (dto.completedAt.Some? ==> v.completedAt == dto.completedAt) && (dto.completedAt.None? ==> v.completedAt == a.completedAt)
            && (dto.contactId.Some? ==> v.contactId == dto.contactId) && (dto.contactId.None? ==> v.contactId == a.contactId)
            && (dto.dealId.Some? ==> v.dealId == dto.dealId) && (dto.dealId.None? ==> v.dealId == a.dealId)
  {
  }

  /** `remove` deletes the row for good: the id is gone, so a second lookup,
      removal or completion is NotFound; every other row stays. */
  lemma RemoveIsHard(activities: map<Id, Activity>, id: Id, now: Time)
    requires id in activities
    ensures var s := RemoveStep(activities, id);
      s.result == Ok(activities[id])
      && s.state.Keys == activities.Keys - {id}
      && (forall k :: k in s.state ==> s.state[k] == activities[k])
      && FindOne(s.state, id) == Err(NotFound(ACTIVITY_NOT_FOUND))
      && RemoveStep(s.state, id) == Step(Err(NotFound(ACTIVITY_NOT_FOUND)), s.state)
      && MarkCompleteStep(s.state, id, now) == Step(Err(NotFound(ACTIVITY_NOT_FOUND)), s.state)
  {
  }

  /** `markComplete` stamps `completedAt` with the current time, whether or
      not the activity was already complete, and the activity leaves both
      the upcoming and the overdue list; a missing id is NotFound. */
  lemma MarkCompleteCloses(activities: map<Id, Activity>, id: Id, now: Time, userId: Id, startOfToday: Time)
    ensures var s := MarkCompleteStep(activities, id, now);
      (s.result.Err? <==> id !in activities)
      && (s.result.Err? ==> s.result.error == NotFound(ACTIVITY_NOT_FOUND) && s.state == activities)
      && (s.result.Ok? ==>
            s.state == activities[id := activities[id].(completedAt := Some(now))]
            && id !in UpcomingIds(s.state, userId, startOfToday)
            && id !in OverdueIds(s.state, userId, startOfToday)
            && UpcomingIds(s.state, userId, startOfToday) == UpcomingIds(activities, userId, startOfToday) - {id}
            && OverdueIds(s.state, userId, startOfToday) == OverdueIds(activities, userId, startOfToday) - {id})
  {
  }
}
