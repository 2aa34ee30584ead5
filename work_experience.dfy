/**
 * The WorkExperience entity (app/domain/entities/work_experience.py): a
 * role at a company over a date range, with an optional description and a
 * list of responsibilities. As in every entity, updates assign first and
 * validate afterwards.
 */
module WorkExperiences {
  import opened Common

  const MaxRoleLength: nat := 100
  const MaxCompanyLength: nat := 100
  const MaxDescriptionLength: nat := 2000
  const MaxResponsibilities: nat := 20
  const MaxResponsibilityLength: nat := 500

  datatype ExperienceFields = ExperienceFields(
    role: string,
    company: string,
    startDate: Timestamp,
    description: Option<string>,
    endDate: Option<Timestamp>,
    responsibilities: seq<string>)

  type ExperienceRecord = Entry<ExperienceFields>

  predicate ResponsibilitiesOk(rs: seq<string>) {
    |rs| <= MaxResponsibilities && ItemsOk(rs, MaxResponsibilityLength)
  }

  predicate FieldsOk(f: ExperienceFields) {
    RequiredTextOk(f.role, MaxRoleLength)
    && RequiredTextOk(f.company, MaxCompanyLength)
    && OptionalTextOk(f.description, MaxDescriptionLength)
    && DateRangeOk(f.startDate, f.endDate)
    && ResponsibilitiesOk(f.responsibilities)
  }

  /** The invariant every constructed WorkExperience satisfies. */
  predicate ValidExperience(r: ExperienceRecord) {
    PlacementOk(r) && FieldsOk(r.body)
  }

  function CheckRole(s: string): Outcome {
    CheckRequiredText(s, InvalidRole, "role", MaxRoleLength)
  }

  function CheckCompany(s: string): Outcome {
    CheckRequiredText(s, InvalidCompany, "company", MaxCompanyLength)
  }

  /** `_validate_description` after it has written a blank description back as None. */
  function CheckDescription(d: Option<string>): (o: Outcome)
    ensures o.Pass? <==> OptionalTextOk(BlankToNone(d), MaxDescriptionLength)
  {
    CheckCoercedText(d, "description", MaxDescriptionLength)
  }

  function CheckResponsibilities(rs: seq<string>): (o: Outcome)
    ensures o.Pass? <==> ResponsibilitiesOk(rs)
  {
    CheckList(rs, "responsibilities", "responsibility item", MaxResponsibilities, MaxResponsibilityLength)
  }

  function Normalized(r: ExperienceRecord): ExperienceRecord {
    r.(body := r.body.(description := BlankToNone(r.body.description)))
  }

  /**
   * `__post_init__`: profile_id, role, company, description, dates,
   * responsibilities and order_index are checked in that order; a blank
   * description is stored as None.
   */
  function Construct(r: ExperienceRecord): (res: Result<ExperienceRecord, DomainError>)
    ensures res.Success? <==> ValidExperience(Normalized(r))
    ensures res.Success? ==> res.value == Normalized(r)
    ensures ValidExperience(r) ==> res == Success(r)
  {
    var normalized := Normalized(r);
    :- CheckProfileId(r.profileId);
    :- CheckRole(r.body.role);
    :- CheckCompany(r.body.company);
    :- CheckDescription(r.body.description);
    :- CheckDateRange(r.body.startDate, r.body.endDate);
    :- CheckResponsibilities(r.body.responsibilities);
    :- CheckOrderIndex(r.orderIndex);
    Success(normalized)
  }

  /** The role is checked before the company, and both before the dates. */
  lemma ConstructChecksInOrder(r: ExperienceRecord)
    ensures !IsBlank(r.profileId) && IsBlank(r.body.role) ==> Construct(r) == Failure(InvalidRole)
    ensures !IsBlank(r.profileId) && RequiredTextOk(r.body.role, MaxRoleLength) && IsBlank(r.body.company)
            ==> Construct(r) == Failure(InvalidCompany)
  {
  }

  /** The record `WorkExperience.create` builds. */
  function NewRecord(profileId: Id, role: string, company: string, startDate: Timestamp, orderIndex: int,
                     description: Option<string>, endDate: Option<Timestamp>,
                     responsibilities: Option<seq<string>>, newId: Id, now: Timestamp): ExperienceRecord
  {
    Entry(newId, profileId, orderIndex,
          ExperienceFields(role, company, startDate, description, endDate,
                           if responsibilities.Some? then responsibilities.value else []),
          now, now)
  }

  /**
   * `update_info` on the fields: role, company and description are
   * assigned and checked one after the other (a blank description is
   * written back as None), then both dates are assigned and the range is
   * checked. The state after a failing check keeps every assignment made so
   * far.
   */
  function InfoApplied(f: ExperienceFields, role: Option<string>, company: Option<string>,
                       description: Option<string>, startDate: Option<Timestamp>,
                       endDate: Option<Timestamp>): Step<ExperienceFields>
  {
    if role.Some? then
      var f1 := f.(role := role.value);
      var c := CheckRole(role.value);
      if c.Fail? then Step(f1, c) else CompanyApplied(f1, company, description, startDate, endDate)
    else CompanyApplied(f, company, description, startDate, endDate)
  }

  /** The rest of `update_info` once the role is settled. */
  function CompanyApplied(f: ExperienceFields, company: Option<string>, description: Option<string>,
                          startDate: Option<Timestamp>, endDate: Option<Timestamp>): Step<ExperienceFields>
  {
    if company.Some? then
      var f1 := f.(company := company.value);
      var c := CheckCompany(company.value);
      if c.Fail? then Step(f1, c) else DescriptionApplied(f1, description, startDate, endDate)
    else DescriptionApplied(f, description, startDate, endDate)
  }

  /** The rest of `update_info` once the company is settled. */
  function DescriptionApplied(f: ExperienceFields, description: Option<string>,
                              startDate: Option<Timestamp>, endDate: Option<Timestamp>): Step<ExperienceFields>
  {
    if description.Some? then
      var f1 := f.(description := BlankToNone(description));
      var c := CheckDescription(description);
      if c.Fail? then Step(f1, c) else DatesApplied(f1, startDate, endDate)
    else DatesApplied(f, startDate, endDate)
  }

  /** The last part of `update_info`: both dates are applied, then the range is checked. */
  function DatesApplied(f: ExperienceFields, startDate: Option<Timestamp>, endDate: Option<Timestamp>): Step<ExperienceFields>
  {
    var f1 := f.(startDate := Pick(startDate, f.startDate), endDate := PickOpt(endDate, f.endDate));
    Step(f1, CheckDateRange(f1.startDate, f1.endDate))
  }

  /** `update_info` on the whole entity. */
  function InfoUpdated(r: ExperienceRecord, role: Option<string>, company: Option<string>,
                       description: Option<string>, startDate: Option<Timestamp>,
                       endDate: Option<Timestamp>, now: Timestamp): Step<ExperienceRecord>
  {
    Touched(r, InfoApplied(r.body, role, company, description, startDate, endDate), now)
  }

  /** The fields once every given argument of `update_info` is applied. */
  function InfoTarget(f: ExperienceFields, role: Option<string>, company: Option<string>,
                      description: Option<string>, startDate: Option<Timestamp>,
                      endDate: Option<Timestamp>): ExperienceFields
  {
    f.(role := Pick(role, f.role), company := Pick(company, f.company),
       description := if description.Some? then BlankToNone(description) else f.description,
       startDate := Pick(startDate, f.startDate), endDate := PickOpt(endDate, f.endDate))
  }

  /** Every given argument of `update_info` passes its check and the resulting dates form a range. */
  predicate InfoAcceptable(f: ExperienceFields, role: Option<string>, company: Option<string>,
                           description: Option<string>, startDate: Option<Timestamp>,
                           endDate: Option<Timestamp>)
  {
    (role.None? || RequiredTextOk(role.value, MaxRoleLength))
    && (company.None? || RequiredTextOk(company.value, MaxCompanyLength))
    && (description.None? || OptionalTextOk(BlankToNone(description), MaxDescriptionLength))
    && DateRangeOk(Pick(startDate, f.startDate), PickOpt(endDate, f.endDate))
  }

  lemma DescriptionAppliedMeaning(f: ExperienceFields, description: Option<string>,
                                  startDate: Option<Timestamp>, endDate: Option<Timestamp>)
    ensures var s := DescriptionApplied(f, description, startDate, endDate);
            (s.outcome.Pass? <==> InfoAcceptable(f, None, None, description, startDate, endDate))
            && (s.outcome.Pass? ==> s.state == InfoTarget(f, None, None, description, startDate, endDate))
            && s.state.responsibilities == f.responsibilities
            && s.state.role == f.role && s.state.company == f.company
  {
  }

  lemma CompanyAppliedMeaning(f: ExperienceFields, company: Option<string>, description: Option<string>,
                              startDate: Option<Timestamp>, endDate: Option<Timestamp>)
    ensures var s := CompanyApplied(f, company, description, startDate, endDate);
            (s.outcome.Pass? <==> InfoAcceptable(f, None, company, description, startDate, endDate))
            && (s.outcome.Pass? ==> s.state == InfoTarget(f, None, company, description, startDate, endDate))
            && s.state.responsibilities == f.responsibilities
            && s.state.role == f.role
            && (company.Some? ==> s.state.company == company.value)
  {
    if company.Some? {
      DescriptionAppliedMeaning(f.(company := company.value), description, startDate, endDate);
    } else {
      DescriptionAppliedMeaning(f, description, startDate, endDate);
    }
  }

  /**
   * `update_info` succeeds exactly when every given role, company and
   * description is acceptable and the resulting dates form a valid range;
   * then exactly the given fields have changed (a blank description stored
   * as None). Whatever happens, the responsibilities stay, and a given role
   * stays assigned even when a later check fails.
   */
  lemma InfoAppliedMeaning(f: ExperienceFields, role: Option<string>, company: Option<string>,
                           description: Option<string>, startDate: Option<Timestamp>,
                           endDate: Option<Timestamp>)
    ensures var s := InfoApplied(f, role, company, description, startDate, endDate);
            (s.outcome.Pass? <==> InfoAcceptable(f, role, company, description, startDate, endDate))
            && (s.outcome.Pass? ==> s.state == InfoTarget(f, role, company, description, startDate, endDate))
            && s.state.responsibilities == f.responsibilities
            && (role.Some? ==> s.state.role == role.value)
  {
    if role.Some? {
      CompanyAppliedMeaning(f.(role := role.value), company, description, startDate, endDate);
    } else {
      CompanyAppliedMeaning(f, company, description, startDate, endDate);
    }
  }

  /** A successful `update_info` keeps a valid experience valid. */
  lemma InfoUpdatePreservesValid(r: ExperienceRecord, role: Option<string>, company: Option<string>,
                                 description: Option<string>, startDate: Option<Timestamp>,
                                 endDate: Option<Timestamp>, now: Timestamp)
    requires ValidExperience(r)
    requires InfoUpdated(r, role, company, description, startDate, endDate, now).outcome.Pass?
    ensures ValidExperience(InfoUpdated(r, role, company, description, startDate, endDate, now).state)
  {
    InfoAppliedMeaning(r.body, role, company, description, startDate, endDate);
  }

  /** `update_responsibilities`: the list is replaced, then validated. */
  function ResponsibilitiesReplaced(r: ExperienceRecord, rs: seq<string>, now: Timestamp): (s: Step<ExperienceRecord>)
    ensures s.state.body == r.body.(responsibilities := rs)
    ensures s.outcome.Pass? <==> ResponsibilitiesOk(rs)
    ensures ValidExperience(r) && s.outcome.Pass? ==> ValidExperience(s.state)
  {
    Touched(r, Step(r.body.(responsibilities := rs), CheckResponsibilities(rs)), now)
  }

  /** `add_responsibility`: room, non-blank, at most 500 characters; then exactly that item is appended. */
  function ResponsibilityAdded(r: ExperienceRecord, item: string, now: Timestamp): (s: Step<ExperienceRecord>)
    ensures s.outcome.Pass? <==> |r.body.responsibilities| < MaxResponsibilities && RequiredTextOk(item, MaxResponsibilityLength)
    ensures s.outcome.Pass? ==> s.state == r.(body := r.body.(responsibilities := r.body.responsibilities + [item]), updatedAt := now)
    ensures s.outcome.Fail? ==> s.state == r
    ensures ValidExperience(r) && s.outcome.Pass? ==> ValidExperience(s.state)
  {
    var c := CheckAppend(r.body.responsibilities, item, "responsibilities", "responsibility",
                         MaxResponsibilities, MaxResponsibilityLength);
    if c.Fail? then Step(r, c)
    else Step(r.(body := r.body.(responsibilities := r.body.responsibilities + [item]), updatedAt := now), Pass)
  }

  /** A 21st responsibility is refused and the list is left as it was. */
  lemma TwentyFirstRefused(r: ExperienceRecord, item: string, now: Timestamp)
    requires |r.body.responsibilities| == MaxResponsibilities
    ensures ResponsibilityAdded(r, item, now) == Step(r, Fail(InvalidLength("responsibilities", AtMost(MaxResponsibilities))))
  {
  }

  /** `update_info` with no end date keeps the stored one: the end date cannot be cleared this way. */
  lemma EndDateNotCleared(f: ExperienceFields)
    ensures InfoApplied(f, None, None, None, None, None).state.endDate == f.endDate
  {
  }

  /** A rejected company stays assigned; the role accepted before it stays too. */
  lemma RejectedCompanyStays(f: ExperienceFields, role: string, company: string)
    requires RequiredTextOk(role, MaxRoleLength) && !RequiredTextOk(company, MaxCompanyLength)
    ensures InfoApplied(f, Some(role), Some(company), None, None, None) == Step(f.(role := role, company := company), CheckCompany(company))
  {
  }

  class WorkExperience {
    var id: Id
    var profileId: Id
    var role: string
    var company: string
    var startDate: Timestamp
    var orderIndex: int
    var description: Option<string>
    var endDate: Option<Timestamp>
    var responsibilities: seq<string>
    var createdAt: Timestamp
    var updatedAt: Timestamp

    function Record(): ExperienceRecord
      reads this
    {
      Entry(id, profileId, orderIndex,
            ExperienceFields(role, company, startDate, description, endDate, responsibilities),
            createdAt, updatedAt)
    }

    predicate Valid()
      reads this
    {
      ValidExperience(Record())
    }

    constructor Init(r: ExperienceRecord)
      ensures Record() == r
    {
      id, profileId, orderIndex := r.id, r.profileId, r.orderIndex;
      role, company, startDate := r.body.role, r.body.company, r.body.startDate;
      description, endDate := r.body.description, r.body.endDate;
      responsibilities := r.body.responsibilities;
      createdAt, updatedAt := r.createdAt, r.updatedAt;
    }

    static method Build(r: ExperienceRecord) returns (res: Result<WorkExperience, DomainError>)
      ensures res.Success? <==> Construct(r).Success?
      ensures res.Success? ==> fresh(res.value) && res.value.Record() == Construct(r).value && res.value.Valid()
      ensures res.Failure? ==> res.error == Construct(r).error
    {
      var c := Construct(r);
      if c.Failure? {
        return Failure(c.error);
      }
      var e := new WorkExperience.Init(c.value);
      return Success(e);
    }

    static method Create(profileId: Id, role: string, company: string, startDate: Timestamp, orderIndex: int,
                         description: Option<string>, endDate: Option<Timestamp>,
                         responsibilities: Option<seq<string>>, newId: Id, now: Timestamp)
      returns (res: Result<WorkExperience, DomainError>)
      ensures var r := NewRecord(profileId, role, company, startDate, orderIndex, description, endDate,
                                 responsibilities, newId, now);
              (res.Success? <==> Construct(r).Success?)
              && (res.Success? ==> fresh(res.value) && res.value.Record() == Construct(r).value && res.value.Valid())
              && (res.Failure? ==> res.error == Construct(r).error)
    {
      res := Build(NewRecord(profileId, role, company, startDate, orderIndex, description, endDate,
                             responsibilities, newId, now));
    }

    method UpdateInfo(newRole: Option<string>, newCompany: Option<string>, newDescription: Option<string>,
                      newStart: Option<Timestamp>, newEnd: Option<Timestamp>, now: Timestamp) returns (o: Outcome)
      modifies this
      ensures Record() == InfoUpdated(old(Record()), newRole, newCompany, newDescription, newStart, newEnd, now).state
      ensures o == InfoUpdated(old(Record()), newRole, newCompany, newDescription, newStart, newEnd, now).outcome
    {
      o := ApplyInfo(newRole, newCompany, newDescription, newStart, newEnd);
      if o.Fail? { return; }
      updatedAt := now;
    }

    method ApplyInfo(newRole: Option<string>, newCompany: Option<string>, newDescription: Option<string>,
                     newStart: Option<Timestamp>, newEnd: Option<Timestamp>) returns (o: Outcome)
      modifies this
      ensures Record() == old(Record()).(body := InfoApplied(old(Record()).body, newRole, newCompany, newDescription, newStart, newEnd).state)
      ensures o == InfoApplied(old(Record()).body, newRole, newCompany, newDescription, newStart, newEnd).outcome
    {
      if newRole.Some? {
        role := newRole.value;
        o := CheckRole(role);
        if o.Fail? { return; }
      }
      o := ApplyCompany(newCompany, newDescription, newStart, newEnd);
    }

    method ApplyCompany(newCompany: Option<string>, newDescription: Option<string>,
                        newStart: Option<Timestamp>, newEnd: Option<Timestamp>) returns (o: Outcome)
      modifies this
      ensures Record() == old(Record()).(body := CompanyApplied(old(Record()).body, newCompany, newDescription, newStart, newEnd).state)
      ensures o == CompanyApplied(old(Record()).body, newCompany, newDescription, newStart, newEnd).outcome
    {
      if newCompany.Some? {
        company := newCompany.value;
        o := CheckCompany(company);
        if o.Fail? { return; }
      }
      o := ApplyDescription(newDescription, newStart, newEnd);
    }

    method ApplyDescription(newDescription: Option<string>, newStart: Option<Timestamp>, newEnd: Option<Timestamp>) returns (o: Outcome)
      modifies this
      ensures Record() == old(Record()).(body := DescriptionApplied(old(Record()).body, newDescription, newStart, newEnd).state)
      ensures o == DescriptionApplied(old(Record()).body, newDescription, newStart, newEnd).outcome
    {
      if newDescription.Some? {
        o := CheckDescription(newDescription);
        description := BlankToNone(newDescription);
        if o.Fail? { return; }
      }
      o := ApplyDates(newStart, newEnd);
    }

    method ApplyDates(newStart: Option<Timestamp>, newEnd: Option<Timestamp>) returns (o: Outcome)
      modifies this
      ensures Record() == old(Record()).(body := DatesApplied(old(Record()).body, newStart, newEnd).state)
      ensures o == DatesApplied(old(Record()).body, newStart, newEnd).outcome
    {
      if newStart.Some? {
        startDate := newStart.value;
      }
      if newEnd.Some? {
        endDate := newEnd;
      }
      o := CheckDateRange(startDate, endDate);
    }

    method UpdateResponsibilities(rs: seq<string>, now: Timestamp) returns (o: Outcome)
      modifies this
      ensures Record() == ResponsibilitiesReplaced(old(Record()), rs, now).state
      ensures o == ResponsibilitiesReplaced(old(Record()), rs, now).outcome
    {
      responsibilities := rs;
      o := CheckResponsibilities(responsibilities);
      if o.Fail? { return; }
      updatedAt := now;
    }

    method AddResponsibility(item: string, now: Timestamp) returns (o: Outcome)
      modifies this
      ensures Record() == ResponsibilityAdded(old(Record()), item, now).state
      ensures o == ResponsibilityAdded(old(Record()), item, now).outcome
    {
      if |responsibilities| >= MaxResponsibilities {
        return Fail(InvalidLength("responsibilities", AtMost(MaxResponsibilities)));
      }
      if IsBlank(item) {
        return Fail(EmptyField("responsibility"));
      }
      if |item| > MaxResponsibilityLength {
        return Fail(InvalidLength("responsibility", AtMost(MaxResponsibilityLength)));
      }
      responsibilities := responsibilities + [item];
      updatedAt := now;
      o := Pass;
    }

    method UpdateOrder(newIndex: int, now: Timestamp) returns (o: Outcome)
      modifies this
      ensures Record() == Reindexed(old(Record()), newIndex, now).state
      ensures o == Reindexed(old(Record()), newIndex, now).outcome
    {
      orderIndex := newIndex;
      o := CheckOrderIndex(orderIndex);
      if o.Fail? { return; }
      updatedAt := now;
    }

    /** `is_current_position`. */
    method IsCurrentPosition() returns (b: bool)
      ensures b <==> endDate.None?
    {
      b := endDate.None?;
    }
  }
}
