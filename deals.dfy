/** The deals service: creation and update with the contact and company
    checks and the caller as owner, the filtered listing, the stage change
    that stamps the close date, the soft delete, a deal's activities, and
    the per-stage pipeline counts. */
module Deals {
  import opened Common
  import opened Enums
  import opened Entities
  import opened Dtos
  import opened Pagination

  const DEAL_NOT_FOUND := "Deal not found"
  const CONTACT_NOT_FOUND := "Contact not found"
  const COMPANY_NOT_FOUND := "Company not found"

  // ---- reads ----

  /** The rows `findAll` lists: live, and of the given stage name and owner
      when those filters are truthy. */
  function DealsMatching(deals: map<Id, Deal>, stage: Option<string>, ownerId: Option<Id>): set<Id> {
    set id | id in deals && deals[id].Live()
      && (Given(stage) ==> StageName(deals[id].stage) == stage.value)
      && (Given(ownerId) ==> deals[id].ownerId == ownerId.value)
  }

  /** Every row shown is a live deal of the table, and passes the truthy
      filters. */
  predicate ShowsMatching(deals: map<Id, Deal>, stage: Option<string>, ownerId: Option<Id>, rows: seq<(Id, Deal)>) {
    forall k :: 0 <= k < |rows| ==>
      var (id, d) := rows[k];
      id in deals && d == deals[id] && d.Live()
      && (Given(stage) ==> StageName(d.stage) == stage.value)
      && (Given(ownerId) ==> d.ownerId == ownerId.value)
  }

  lemma MatchingRowsShow(deals: map<Id, Deal>, stage: Option<string>, ownerId: Option<Id>, rows: seq<(Id, Deal)>)
    requires forall k :: 0 <= k < |rows| ==> rows[k].0 in DealsMatching(deals, stage, ownerId) && rows[k].1 == deals[rows[k].0]
    ensures ShowsMatching(deals, stage, ownerId, rows)
  {
  }

  /** `findAll`: the query string `stage` goes to the store unchecked, so a
      truthy stage that is none of `stageNames` (the schema's `DealStage`
      names) is the store's validation error; otherwise a page of the
      matching live deals and a meta that counts exactly the matching rows. */
  function FindAll(deals: map<Id, Deal>, page: int, limit: int, stage: Option<string>, ownerId: Option<Id>, stageNames: set<string>, ordered: seq<Id>): (r: Result<Listing<(Id, Deal)>>)
    requires page >= 1 && limit >= 1
    requires Lists(ordered, DealsMatching(deals, stage, ownerId))
    ensures r.Err? <==> Given(stage) && stage.value !in stageNames
    ensures r.Err? ==> r.error == StoreFailure(INVALID_ENUM_VALUE)
    ensures r.Ok? ==> r.value.meta == Meta(page, limit, |DealsMatching(deals, stage, ownerId)|)
    ensures r.Ok? ==> |r.value.data| <= limit
    ensures r.Ok? ==> r.value.data == RowsOf(deals, Page(ordered, page, limit))
    ensures r.Ok? ==> ShowsMatching(deals, stage, ownerId, r.value.data)
  {
    if Given(stage) && stage.value !in stageNames then Err(StoreFailure(INVALID_ENUM_VALUE))
    else
      var l := ListTable(deals, DealsMatching(deals, stage, ownerId), page, limit, ordered);
      MatchingRowsShow(deals, stage, ownerId, l.data);
      Ok(l)
  }

  /** `findOne`: a live deal, or NotFound. */
  function FindOne(deals: map<Id, Deal>, id: Id): (r: Result<Deal>)
    ensures r.Ok? <==> LiveDeal(deals, id)
    ensures r.Ok? ==> r.value == deals[id]
    ensures r.Err? ==> r.error == NotFound(DEAL_NOT_FOUND)
  {
    if LiveDeal(deals, id) then Ok(deals[id]) else Err(NotFound(DEAL_NOT_FOUND))
  }

  /** The activities of a deal: every one that names it. */
  function ActivitiesOfDeal(activities: map<Id, Activity>, dealId: Id): set<Id> {
    set a | a in activities && activities[a].dealId == Some(dealId)
  }

  /** `getDealActivities`: NotFound unless the deal is live; then a page of
      all activities naming it. */
  function DealActivities(deals: map<Id, Deal>, activities: map<Id, Activity>, id: Id, page: int, limit: int, ordered: seq<Id>): (r: Result<Listing<(Id, Activity)>>)
    requires page >= 1 && limit >= 1
    requires Lists(ordered, ActivitiesOfDeal(activities, id))
    ensures r.Err? <==> !LiveDeal(deals, id)
    ensures r.Err? ==> r.error == NotFound(DEAL_NOT_FOUND)
    ensures r.Ok? ==> r.value.meta == Meta(page, limit, |ActivitiesOfDeal(activities, id)|)
    ensures r.Ok? ==> r.value.data == RowsOf(activities, Page(ordered, page, limit))
    ensures r.Ok? ==> (forall k :: 0 <= k < |r.value.data| ==>
      r.value.data[k].0 in activities && r.value.data[k].1.dealId == Some(id))
  {
    if !LiveDeal(deals, id) then Err(NotFound(DEAL_NOT_FOUND))
    else Ok(ListTable(activities, ActivitiesOfDeal(activities, id), page, limit, ordered))
  }

  // ---- writes, as steps ----

  /** The reference checks of `create` and `update`, in their order: a
      truthy contactId must name a live contact, then a truthy companyId a
      live company. */
  function RefCheck(contacts: map<Id, Contact>, companies: map<Id, Company>, contactId: Option<Id>, companyId: Option<Id>): (e: Option<Error>)
    ensures e.None? <==> (Given(contactId) ==> LiveContact(contacts, contactId.value))
                         && (Given(companyId) ==> LiveCompany(companies, companyId.value))
    ensures e == Some(NotFound(CONTACT_NOT_FOUND)) <==> Given(contactId) && !LiveContact(contacts, contactId.value)
  {
    if Given(contactId) && !LiveContact(contacts, contactId.value) then Some(NotFound(CONTACT_NOT_FOUND))
    else if Given(companyId) && !LiveCompany(companies, companyId.value) then Some(NotFound(COMPANY_NOT_FOUND))
    else None
  }

  /** The new row: the DTO's fields, the schema's defaults for an absent
      stage and probability, and the caller as owner. */
  function NewDeal(dto: CreateDealDto, ownerId: Id, defaultStage: DealStage, defaultProbability: int, now: Time): Deal {
    Deal(dto.title, dto.amount, dto.stage.GetOr(defaultStage),
         if dto.probability.Some? then dto.probability.value.Floor else defaultProbability,
         dto.expectedCloseDate, None, dto.contactId, dto.companyId, ownerId, dto.notes, now, None)
  }

  function CreateStep(deals: map<Id, Deal>, contacts: map<Id, Contact>, companies: map<Id, Company>, dto: CreateDealDto, userId: Id, defaultStage: DealStage, defaultProbability: int, id: Id, now: Time): Step<Deal, map<Id, Deal>>
    requires NonEmptyIfPresent(dto.contactId) && NonEmptyIfPresent(dto.companyId)
  {
    match RefCheck(contacts, companies, dto.contactId, dto.companyId)
    case Some(e) => Step(Err(e), deals)
    case None =>
      var d := NewDeal(dto, userId, defaultStage, defaultProbability, now);
      Step(Ok(d), deals[id := d])
  }

  /** The fields `update` writes: those the DTO carries. */
  function ApplyUpdate(d: Deal, dto: UpdateDealDto): Deal {
    d.(title := dto.title.GetOr(d.title),
       amount := dto.amount.GetOr(d.amount),
       stage := dto.stage.GetOr(d.stage),
       probability := if dto.probability.Some? then dto.probability.value.Floor else d.probability,
       expectedCloseDate := if dto.expectedCloseDate.Some? then dto.expectedCloseDate else d.expectedCloseDate,
       contactId := if dto.contactId.Some? then dto.contactId else d.contactId,
       companyId := if dto.companyId.Some? then dto.companyId else d.companyId,
       notes := if dto.notes.Some? then dto.notes else d.notes)
  }

  function UpdateStep(deals: map<Id, Deal>, contacts: map<Id, Contact>, companies: map<Id, Company>, id: Id, dto: UpdateDealDto): Step<Deal, map<Id, Deal>>
    requires NonEmptyIfPresent(dto.contactId) && NonEmptyIfPresent(dto.companyId)
  {
    if !LiveDeal(deals, id) then Step(Err(NotFound(DEAL_NOT_FOUND)), deals)
    else match RefCheck(contacts, companies, dto.contactId, dto.companyId)
      case Some(e) => Step(Err(e), deals)
      case None =>
        var d := ApplyUpdate(deals[id], dto);
        Step(Ok(d), deals[id := d])
  }

  /** The row `updateStage` writes: the stage, and the close date when the
      stage is a closed one. */
  function WithStage(d: Deal, stage: DealStage, now: Time): Deal {
    if stage.IsClosed() then d.(stage := stage, actualCloseDate := Some(now)) else d.(stage := stage)
  }

  function UpdateStageStep(deals: map<Id, Deal>, id: Id, stage: DealStage, now: Time): Step<Deal, map<Id, Deal>> {
    if !LiveDeal(deals, id) then Step(Err(NotFound(DEAL_NOT_FOUND)), deals)
    else
      var d := WithStage(deals[id], stage, now);
      Step(Ok(d), deals[id := d])
  }

  function RemoveStep(deals: map<Id, Deal>, id: Id, now: Time): Step<(), map<Id, Deal>> {
    if !LiveDeal(deals, id) then Step(Err(NotFound(DEAL_NOT_FOUND)), deals)
    else Step(Ok(()), deals[id := deals[id].(deletedAt := Some(now))])
  }

  // ---- the service ----

  /** `DealsService`; `defaultStage` and `defaultProbability` are the
      schema's defaults for a new deal. */
  class DealsService {
    const db: Database
    const defaultStage: DealStage
    const defaultProbability: int

    constructor (db: Database, defaultStage: DealStage, defaultProbability: int)
      ensures this.db == db && this.defaultStage == defaultStage && this.defaultProbability == defaultProbability
    {
      this.db := db;
      this.defaultStage := defaultStage;
      this.defaultProbability := defaultProbability;
    }

    method Create(dto: CreateDealDto, userId: Id, id: Id, now: Time) returns (r: Result<Deal>)
      requires NonEmptyIfPresent(dto.contactId) && NonEmptyIfPresent(dto.companyId)
      modifies db`deals
      ensures Step(r, db.deals) == CreateStep(old(db.deals), db.contacts, db.companies, dto, userId, defaultStage, defaultProbability, id, now)
    {
      if Given(dto.contactId) && !LiveContact(db.contacts, dto.contactId.value) {
        return Err(NotFound(CONTACT_NOT_FOUND));
      }
      if Given(dto.companyId) && !LiveCompany(db.companies, dto.companyId.value) {
        return Err(NotFound(COMPANY_NOT_FOUND));
      }
      var deal := NewDeal(dto, userId, defaultStage, defaultProbability, now);
      db.deals := db.deals[id := deal];
      r := Ok(deal);
    }

    method Update(id: Id, dto: UpdateDealDto) returns (r: Result<Deal>)
      requires NonEmptyIfPresent(dto.contactId) && NonEmptyIfPresent(dto.companyId)
      modifies db`deals
      ensures Step(r, db.deals) == UpdateStep(old(db.deals), db.contacts, db.companies, id, dto)
    {
      var existing := FindOne(db.deals, id);
      if existing.Err? {
        return Err(existing.error);
      }
      if Given(dto.contactId) && !LiveContact(db.contacts, dto.contactId.value) {
        return Err(NotFound(CONTACT_NOT_FOUND));
      }
      if Given(dto.companyId) && !LiveCompany(db.companies, dto.companyId.value) {
        return Err(NotFound(COMPANY_NOT_FOUND));
      }
      var deal := ApplyUpdate(existing.value, dto);
      db.deals := db.deals[id := deal];
      r := Ok(deal);
    }

    method UpdateStage(id: Id, stage: DealStage, now: Time) returns (r: Result<Deal>)
      modifies db`deals
      ensures Step(r, db.deals) == UpdateStageStep(old(db.deals), id, stage, now)
    {
      var existing := FindOne(db.deals, id);
      if existing.Err? {
        return Err(existing.error);
      }
      var deal := existing.value.(stage := stage);
      if stage == CLOSED_WON || stage == CLOSED_LOST {
        deal := deal.(actualCloseDate := Some(now));
      }
      db.deals := db.deals[id := deal];
      r := Ok(deal);
    }

    method Remove(id: Id, now: Time) returns (r: Result<()>)
      modifies db`deals
      ensures Step(r, db.deals) == RemoveStep(old(db.deals), id, now)
    {
      var existing := FindOne(db.deals, id);
      if existing.Err? {
        return Err(existing.error);
      }
      db.deals := db.deals[id := existing.value.(deletedAt := Some(now))];
      r := Ok(());
    }
  }

  // ---- the pipeline summary ----

  datatype StageSummary = StageSummary(stage: DealStage, count: nat)

  datatype Pipeline = Pipeline(stages: seq<StageSummary>, totalDeals: nat)

  function LiveDealIds(deals: map<Id, Deal>): set<Id> {
    set id | id in deals && deals[id].Live()
  }

  /** The deals of `ids` at `stage`, in the order of `ids` (an id with no
      row is at no stage). */
  function AtStage(deals: map<Id, Deal>, ids: seq<Id>, stage: DealStage): (r: seq<Id>)
    ensures forall x :: x in r <==> x in ids && x in deals && deals[x].stage == stage
    ensures |r| <= |ids|
    decreases |ids|
  {
    if ids == [] then []
    else
      var last := ids[|ids| - 1];
      AtStage(deals, ids[..|ids| - 1], stage) + (if last in deals && deals[last].stage == stage then [last] else [])
  }

  /** Adding one id at the end extends its stage's group only. */
  lemma AtStageSnoc(deals: map<Id, Deal>, ids: seq<Id>, x: Id, stage: DealStage)
    ensures AtStage(deals, ids + [x], stage)
      == AtStage(deals, ids, stage) + (if x in deals && deals[x].stage == stage then [x] else [])
  {
    assert (ids + [x])[..|ids|] == ids;
  }

  predicate DistinctStages(stages: seq<DealStage>) {
    forall i, j :: 0 <= i < j < |stages| ==> stages[i] != stages[j]
  }

  /** The sum of the stage counts. */
  function SumCounts(deals: map<Id, Deal>, ids: seq<Id>, stages: seq<DealStage>): nat
    decreases |stages|
  {
    if stages == [] then 0 else |AtStage(deals, ids, stages[0])| + SumCounts(deals, ids, stages[1..])
  }

  function TotalCount(stages: seq<StageSummary>): nat
    decreases |stages|
  {
    if stages == [] then 0 else stages[0].count + TotalCount(stages[1..])
  }

  /** The per-stage counts of `ids`, one entry per stage value in order. */
  predicate CountsAre(deals: map<Id, Deal>, ids: seq<Id>, stageValues: seq<DealStage>, stages: seq<StageSummary>) {
    |stages| == |stageValues|
    && forall i :: 0 <= i < |stageValues| ==> stages[i] == StageSummary(stageValues[i], |AtStage(deals, ids, stageValues[i])|)
  }

  /** `new Map()` filled with an empty group for each stage value. */
  method EmptyGroups(stageValues: seq<DealStage>) returns (groups: map<DealStage, seq<Id>>)
    ensures forall st :: st in groups <==> st in stageValues
    ensures forall st | st in groups :: groups[st] == []
  {
    groups := map[];
    for i := 0 to |stageValues|
      invariant forall st :: st in groups <==> st in stageValues[..i]
      invariant forall st | st in groups :: groups[st] == []
    {
      groups := groups[stageValues[i] := []];
    }
    assert stageValues[..|stageValues|] == stageValues;
  }

  /** The grouping loop: each deal of `ordered` is pushed onto the group of
      its stage when there is one. */
  method FillGroups(deals: map<Id, Deal>, ordered: seq<Id>, stageValues: seq<DealStage>) returns (groups: map<DealStage, seq<Id>>)
    ensures forall st :: st in groups <==> st in stageValues
    ensures forall st | st in groups :: groups[st] == AtStage(deals, ordered, st)
  {
    groups := EmptyGroups(stageValues);
    for j := 0 to |ordered|
      invariant forall st :: st in groups <==> st in stageValues
      invariant forall st | st in groups :: groups[st] == AtStage(deals, ordered[..j], st)
    {
      var id := ordered[j];
      assert ordered[..j + 1] == ordered[..j] + [id];
      forall st | st in groups
        ensures AtStage(deals, ordered[..j + 1], st)
          == AtStage(deals, ordered[..j], st) + (if id in deals && deals[id].stage == st then [id] else [])
      {
        AtStageSnoc(deals, ordered[..j], id, st);
      }
      if id in deals && deals[id].stage in groups {
        var st := deals[id].stage;
        groups := groups[st := groups[st] + [id]];
      }
    }
    assert ordered[..|ordered|] == ordered;
  }

  /** `getPipelineSummary`: one entry per value of the stage enumeration
      (`stageValues`, in its order), each counting the live deals at that
      stage, and the number of live deals. `ordered` is the store's answer
      to the live-deal query. The money totals are not modelled. */
  method PipelineSummary(deals: map<Id, Deal>, ordered: seq<Id>, stageValues: seq<DealStage>) returns (p: Pipeline)
    requires Lists(ordered, LiveDealIds(deals))
    requires DistinctStages(stageValues)
    ensures CountsAre(deals, ordered, stageValues, p.stages)
    ensures p.totalDeals == |LiveDealIds(deals)|
    ensures (forall id | id in LiveDealIds(deals) :: deals[id].stage in stageValues) ==>
      TotalCount(p.stages) == p.totalDeals
  {
    var groups := FillGroups(deals, ordered, stageValues);
    var stages: seq<StageSummary> := [];
    for i := 0 to |stageValues|
      invariant |stages| == i
      invariant forall k :: 0 <= k < i ==> stages[k] == StageSummary(stageValues[k], |AtStage(deals, ordered, stageValues[k])|)
    {
      stages := stages + [StageSummary(stageValues[i], |groups[stageValues[i]]|)];
    }
    ListsCount(ordered, LiveDealIds(deals));
    p := Pipeline(stages, |ordered|);
    if forall id | id in LiveDealIds(deals) :: deals[id].stage in stageValues {
      LiveStagesListed(deals, ordered, stageValues);
      CountsPartition(deals, ordered, stageValues);
      TotalCountIsSum(deals, ordered, stageValues, stages);
    }
  }

  lemma LiveStagesListed(deals: map<Id, Deal>, ordered: seq<Id>, stageValues: seq<DealStage>)
    requires Lists(ordered, LiveDealIds(deals))
    requires forall id | id in LiveDealIds(deals) :: deals[id].stage in stageValues
    ensures forall k :: 0 <= k < |ordered| ==> ordered[k] in deals && deals[ordered[k]].stage in stageValues
  {
    forall k | 0 <= k < |ordered| ensures ordered[k] in deals && deals[ordered[k]].stage in stageValues {
      assert ordered[k] in ordered;
    }
  }

  /** The summary's total agrees with the sum of the per-stage counts. */
  lemma {:induction false} TotalCountIsSum(deals: map<Id, Deal>, ids: seq<Id>, stageValues: seq<DealStage>, stages: seq<StageSummary>)
    requires CountsAre(deals, ids, stageValues, stages)
    ensures TotalCount(stages) == SumCounts(deals, ids, stageValues)
    decreases |stages|
  {
    if stages != [] {
      TotalCountIsSum(deals, ids, stageValues[1..], stages[1..]);
    }
  }

  /** How many times `s` occurs in `stages`. */
  function Occurrences(stages: seq<DealStage>, s: DealStage): nat
    decreases |stages|
  {
    if stages == [] then 0 else (if stages[0] == s then 1 else 0) + Occurrences(stages[1..], s)
  }

  lemma {:induction false} OccursOnce(stages: seq<DealStage>, s: DealStage)
    requires DistinctStages(stages) && s in stages
    ensures Occurrences(stages, s) == 1
    decreases |stages|
  {
    if stages[0] == s {
      OccursNot(stages[1..], s);
    } else {
      OccursOnce(stages[1..], s);
    }
  }

  lemma {:induction false} OccursNot(stages: seq<DealStage>, s: DealStage)
    requires s !in stages
    ensures Occurrences(stages, s) == 0
    decreases |stages|
  {
    if stages != [] {
      OccursNot(stages[1..], s);
    }
  }

  /** One more deal adds one to the count of each stage entry equal to its
      stage. */
  lemma {:induction false} SumCountsSnoc(deals: map<Id, Deal>, ids: seq<Id>, x: Id, stages: seq<DealStage>)
    requires x in deals
    ensures SumCounts(deals, ids + [x], stages) == SumCounts(deals, ids, stages) + Occurrences(stages, deals[x].stage)
    decreases |stages|
  {
    if stages != [] {
      assert (ids + [x])[..|ids + [x]| - 1] == ids;
      SumCountsSnoc(deals, ids, x, stages[1..]);
    }
  }

  /** The stage counts partition the deals: when the stage list is the
      enumeration (distinct, holding every deal's stage), the counts add up
      to the number of deals. */
  lemma {:induction false} CountsPartition(deals: map<Id, Deal>, ids: seq<Id>, stages: seq<DealStage>)
    requires DistinctStages(stages)
    requires forall k :: 0 <= k < |ids| ==> ids[k] in deals && deals[ids[k]].stage in stages
    ensures SumCounts(deals, ids, stages) == |ids|
    decreases |ids|
  {
    if ids == [] {
      SumCountsEmpty(deals, stages);
    } else {
      var init := ids[..|ids| - 1];
      var x := ids[|ids| - 1];
      assert init + [x] == ids;
      CountsPartition(deals, init, stages);
      SumCountsSnoc(deals, init, x, stages);
      OccursOnce(stages, deals[x].stage);
    }
  }

  lemma {:induction false} SumCountsEmpty(deals: map<Id, Deal>, stages: seq<DealStage>)
    ensures SumCounts(deals, [], stages) == 0
    decreases |stages|
  {
    if stages != [] {
      SumCountsEmpty(deals, stages[1..]);
    }
  }

  /** The live deals at a stage. */
  function LiveAtStage(deals: map<Id, Deal>, stage: DealStage): set<Id> {
    set id | id in deals && deals[id].Live() && deals[id].stage == stage
  }

  /** Each stage count is the number of live deals at that stage. */
  lemma {:induction false} StageCountIsLiveDealsAtStage(deals: map<Id, Deal>, ordered: seq<Id>, stage: DealStage)
    requires Lists(ordered, LiveDealIds(deals))
    ensures |AtStage(deals, ordered, stage)| == |LiveAtStage(deals, stage)|
  {
    var r := AtStage(deals, ordered, stage);
    AtStageDistinct(deals, ordered, stage);
    assert Lists(r, LiveAtStage(deals, stage));
    ListsCount(r, LiveAtStage(deals, stage));
  }

  lemma {:induction false} AtStageDistinct(deals: map<Id, Deal>, ids: seq<Id>, stage: DealStage)
    requires Distinct(ids)
    ensures Distinct(AtStage(deals, ids, stage))
    decreases |ids|
  {
    if ids != [] {
      var init := ids[..|ids| - 1];
      var x := ids[|ids| - 1];
      assert Distinct(init) by {
        forall i, j | 0 <= i < j < |init| ensures init[i] != init[j] {
          assert init[i] == ids[i] && init[j] == ids[j];
        }
      }
      AtStageDistinct(deals, init, stage);
      assert x !in init by {
        forall i | 0 <= i < |init| ensures init[i] != x {
          assert init[i] == ids[i];
        }
      }
      var a := AtStage(deals, init, stage);
      assert x !in a;
      if x in deals && deals[x].stage == stage {
        var r := a + [x];
        forall i, j | 0 <= i < j < |r| ensures r[i] != r[j] {
          if j == |a| {
            assert r[i] == a[i];
            assert a[i] in a;
          } else {
            assert r[i] == a[i] && r[j] == a[j];
          }
        }
      } else {
        assert AtStage(deals, ids, stage) == a + [];
      }
    }
  }

  // ---- properties ----

  /** Creation: NotFound for a truthy contactId or companyId that names no
      live row, the contact checked first; otherwise one new row owned by
      the caller whatever the body says, live and without a close date,
      and nothing else changes. */
  lemma CreateOutcomes(deals: map<Id, Deal>, contacts: map<Id, Contact>, companies: map<Id, Company>, dto: CreateDealDto, userId: Id, defaultStage: DealStage, defaultProbability: int, id: Id, now: Time)
    requires NonEmptyIfPresent(dto.contactId) && NonEmptyIfPresent(dto.companyId)
    ensures var s := CreateStep(deals, contacts, companies, dto, userId, defaultStage, defaultProbability, id, now);
      (s.result == Err(NotFound(CONTACT_NOT_FOUND)) <==> dto.contactId.Some? && !LiveContact(contacts, dto.contactId.value))
      && (s.result == Err(NotFound(COMPANY_NOT_FOUND)) <==>
            (dto.contactId.Some? ==> LiveContact(contacts, dto.contactId.value))
            && dto.companyId.Some? && !LiveCompany(companies, dto.companyId.value))
      && (s.result.Err? ==> s.state == deals)
      && (s.result.Ok? ==>
            s.state == deals[id := s.result.value]
            && s.result.value.ownerId == userId && s.result.value.Live()
            && s.result.value.actualCloseDate.None?
            && s.result.value.title == dto.title && s.result.value.amount == dto.amount
            && s.result.value.stage == dto.stage.GetOr(defaultStage))
  {
  }

  /** A valid body's probability is stored as given. */
  lemma CreateKeepsProbability(deals: map<Id, Deal>, contacts: map<Id, Contact>, companies: map<Id, Company>, dto: CreateDealDto, userId: Id, defaultStage: DealStage, defaultProbability: int, id: Id, now: Time)
    requires NonEmptyIfPresent(dto.contactId) && NonEmptyIfPresent(dto.companyId)
    requires ValidCreateDealDto(dto) && dto.probability.Some?
    requires CreateStep(deals, contacts, companies, dto, userId, defaultStage, defaultProbability, id, now).result.Ok?
    ensures var d := CreateStep(deals, contacts, companies, dto, userId, defaultStage, defaultProbability, id, now).result.value;
      d.probability as real == dto.probability.value && 0 <= d.probability <= 100
  {
  }

  /** `update`, `updateStage` and `remove` refuse a missing or deleted deal
      with NotFound and change nothing, and so does `getDealActivities`. */
  lemma MissingOrDeletedIsNotFound(deals: map<Id, Deal>, contacts: map<Id, Contact>, companies: map<Id, Company>, activities: map<Id, Activity>, id: Id, dto: UpdateDealDto, stage: DealStage, now: Time, page: int, limit: int, ordered: seq<Id>)
    requires !LiveDeal(deals, id)
    requires NonEmptyIfPresent(dto.contactId) && NonEmptyIfPresent(dto.companyId)
    requires page >= 1 && limit >= 1 && Lists(ordered, ActivitiesOfDeal(activities, id))
    ensures FindOne(deals, id) == Err(NotFound(DEAL_NOT_FOUND))
    ensures UpdateStep(deals, contacts, companies, id, dto) == Step(Err(NotFound(DEAL_NOT_FOUND)), deals)
    ensures UpdateStageStep(deals, id, stage, now) == Step(Err(NotFound(DEAL_NOT_FOUND)), deals)
    ensures RemoveStep(deals, id, now) == Step(Err(NotFound(DEAL_NOT_FOUND)), deals)
    ensures DealActivities(deals, activities, id, page, limit, ordered) == Err(NotFound(DEAL_NOT_FOUND))
  {
  }

  /** `updateStage` on a live deal sets the stage; it stamps the close date
      with the current time exactly when the stage is CLOSED_WON or
      CLOSED_LOST and otherwise keeps it; nothing else in the row or the
      table changes. */
  lemma UpdateStageCloseDate(deals: map<Id, Deal>, id: Id, stage: DealStage, now: Time)
    requires LiveDeal(deals, id)
    ensures var s := UpdateStageStep(deals, id, stage, now);
      var d := deals[id];
      s.result.Ok? && s.state == deals[id := s.result.value]
      && s.result.value.stage == stage
      && (stage.IsClosed() ==> s.result.value == d.(stage := stage, actualCloseDate := Some(now)))
      && (!stage.IsClosed() ==> s.result.value == d.(stage := stage))
  {
  }

  /** `update`: NotFound for a missing or deleted deal; then the contact
      check and the company check, in that order, whose error is the
      result; otherwise the row alone is rewritten, with each field the
      body carries written (a probability as the integer it is) and every
      other field kept, owner, creation time, liveness and close date
      included. Every error leaves the table as it was. */
  lemma UpdateOutcomes(deals: map<Id, Deal>, contacts: map<Id, Contact>, companies: map<Id, Company>, id: Id, dto: UpdateDealDto)
    requires NonEmptyIfPresent(dto.contactId) && NonEmptyIfPresent(dto.companyId)
    ensures var s := UpdateStep(deals, contacts, companies, id, dto);
      var check := RefCheck(contacts, companies, dto.contactId, dto.companyId);
      (!LiveDeal(deals, id) ==> s.result == Err(NotFound(DEAL_NOT_FOUND)))
      && (LiveDeal(deals, id) ==> (s.result.Err? <==> check.Some?))
      && (LiveDeal(deals, id) && check.Some? ==> s.result == Err(check.value))
      && (s.result.Err? ==> s.state == deals)
    ensures var s := UpdateStep(deals, contacts, companies, id, dto);
      s.result.Ok? ==>
      var v, d := s.result.value, deals[id];
      s.state == deals[id := v]
      && v.ownerId == d.ownerId && v.createdAt == d.createdAt && v.deletedAt == d.deletedAt
      && v.actualCloseDate == d.actualCloseDate
      && (dto.title.Some? ==> v.title == dto.title.value) && (dto.title.None? ==> v.title == d.title)
      && (dto.amount.Some? ==> v.amount == dto.amount.value) && (dto.amount.None? ==> v.amount == d.amount)
      && (dto.stage.Some? ==> v.stage == dto.stage.value) && (dto.stage.None? ==> v.stage == d.stage)
      && (dto.probability.Some? ==> v.probability == dto.probability.value.Floor) && (dto.probability.None? ==> v.probability == d.probability)
      && (dto.expectedCloseDate.Some? ==> v.expectedCloseDate == dto.expectedCloseDate) && (dto.expectedCloseDate.None? ==> v.expectedCloseDate == d.expectedCloseDate)
      && (dto.contactId.Some? ==> v.contactId == dto.contactId) && (dto.contactId.None? ==> v.contactId == d.contactId)
      && (dto.companyId.Some? ==> v.companyId == dto.companyId) && (dto.companyId.None? ==> v.companyId == d.companyId)
      && (dto.notes.Some? ==> v.notes == dto.notes) && (dto.notes.None? ==> v.notes == d.notes)
  {
  }

  /** The general `update` never stamps a close date, whatever stage it
      writes (a deal created in a closed stage has none either: see
      `CreateOutcomes`). */
  lemma OnlyUpdateStageStampsCloseDate(deals: map<Id, Deal>, contacts: map<Id, Contact>, companies: map<Id, Company>, id: Id, dto: UpdateDealDto)
    requires NonEmptyIfPresent(dto.contactId) && NonEmptyIfPresent(dto.companyId)
    requires UpdateStep(deals, contacts, companies, id, dto).result.Ok?
    ensures UpdateStep(deals, contacts, companies, id, dto).result.value.actualCloseDate == deals[id].actualCloseDate
  {
  }

  /** `remove` only stamps `deletedAt`; afterwards the deal is not found,
      drops out of the listing, and every other row stays. */
  lemma RemoveIsSoft(deals: map<Id, Deal>, id: Id, now: Time, stage: Option<string>, ownerId: Option<Id>)
    requires LiveDeal(deals, id)
    ensures var s := RemoveStep(deals, id, now).state;
      s.Keys == deals.Keys && (forall k :: k in deals && k != id ==> s[k] == deals[k])
      && s[id] == deals[id].(deletedAt := Some(now))
      && FindOne(s, id) == Err(NotFound(DEAL_NOT_FOUND))
      && DealsMatching(s, stage, ownerId) == DealsMatching(deals, stage, ownerId) - {id}
  {
  }
}
