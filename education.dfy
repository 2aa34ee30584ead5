/**
 * The Education entity (app/domain/entities/education.py): a degree in a
 * field of study at an institution over a date range, with an optional
 * description. Updates assign first and validate afterwards.
 */
module Educations {
  import opened Common

  const MaxInstitutionLength: nat := 100
  const MaxDegreeLength: nat := 100
  const MaxFieldLength: nat := 100
  const MaxDescriptionLength: nat := 1000

  datatype EducationFields = EducationFields(
    institution: string,
    degree: string,
    field: string,
    startDate: Timestamp,
    description: Option<string>,
    endDate: Option<Timestamp>)

  type EducationRecord = Entry<EducationFields>

  predicate FieldsOk(f: EducationFields) {
    RequiredTextOk(f.institution, MaxInstitutionLength)
    && RequiredTextOk(f.degree, MaxDegreeLength)
    && RequiredTextOk(f.field, MaxFieldLength)
    && OptionalTextOk(f.description, MaxDescriptionLength)
    && DateRangeOk(f.startDate, f.endDate)
  }

  /** The invariant every constructed Education satisfies. */
  predicate ValidEducation(r: EducationRecord) {
    PlacementOk(r) && FieldsOk(r.body)
  }

  function CheckInstitution(s: string): Outcome {
    CheckRequiredText(s, InvalidInstitution, "institution", MaxInstitutionLength)
  }

  function CheckDegree(s: string): Outcome {
    CheckRequiredText(s, EmptyField("degree"), "degree", MaxDegreeLength)
  }

  function CheckField(s: string): Outcome {
    CheckRequiredText(s, EmptyField("field"), "field", MaxFieldLength)
  }

  function CheckDescription(d: Option<string>): Outcome {
    CheckCoercedText(d, "description", MaxDescriptionLength)
  }

  function Normalized(r: EducationRecord): EducationRecord {
    r.(body := r.body.(description := BlankToNone(r.body.description)))
  }

  /**
   * `__post_init__`: profile_id, institution, degree, field, description,
   * dates and order_index are checked in that order; a blank description is
   * stored as None.
   */
  function Construct(r: EducationRecord): (res: Result<EducationRecord, DomainError>)
    ensures res.Success? <==> ValidEducation(Normalized(r))
    ensures res.Success? ==> res.value == Normalized(r)
    ensures ValidEducation(r) ==> res == Success(r)
  {
    var normalized := Normalized(r);
    :- CheckProfileId(r.profileId);
    :- CheckInstitution(r.body.institution);
    :- CheckDegree(r.body.degree);
    :- CheckField(r.body.field);
    :- CheckDescription(r.body.description);
    :- CheckDateRange(r.body.startDate, r.body.endDate);
    :- CheckOrderIndex(r.orderIndex);
    Success(normalized)
  }

  /** Each missing required text is reported with its own error, the first in source order winning. */
  lemma ConstructChecksInOrder(r: EducationRecord)
    ensures IsBlank(r.profileId) ==> Construct(r) == Failure(EmptyField("profile_id"))
    ensures !IsBlank(r.profileId) && IsBlank(r.body.institution) ==> Construct(r) == Failure(InvalidInstitution)
    ensures !IsBlank(r.profileId) && RequiredTextOk(r.body.institution, MaxInstitutionLength) && IsBlank(r.body.degree)
            ==> Construct(r) == Failure(EmptyField("degree"))
    ensures !IsBlank(r.profileId) && RequiredTextOk(r.body.institution, MaxInstitutionLength)
            && RequiredTextOk(r.body.degree, MaxDegreeLength) && IsBlank(r.body.field)
            ==> Construct(r) == Failure(EmptyField("field"))
  {
  }

  /** 100 characters of institution are accepted, 101 are refused. */
  lemma InstitutionLengthBoundary(s: string)
    requires !IsBlank(s)
    ensures CheckInstitution(s).Pass? <==> |s| <= MaxInstitutionLength
    ensures |s| == MaxInstitutionLength + 1 ==> CheckInstitution(s) == Fail(InvalidLength("institution", AtMost(MaxInstitutionLength)))
  {
  }

  /** A whitespace-only description is stored as None when the entity is built. */
  lemma WhitespaceDescriptionDropped(r: EducationRecord)
    requires r.body.description.Some? && IsBlank(r.body.description.value)
    ensures Construct(r).Success? ==> Construct(r).value.body.description.None?
  {
  }

  /** An end date equal to or before the start is refused; no end date is always fine. */
  lemma DateRangeRule(r: EducationRecord)
    requires ValidEducation(Normalized(r.(body := r.body.(endDate := None))))
    ensures r.body.endDate.None? ==> Construct(r).Success?
    ensures r.body.endDate.Some? && r.body.endDate.value <= r.body.startDate ==> Construct(r).Failure?
  {
  }

  /** The record `Education.create` builds. */
  function NewRecord(profileId: Id, institution: string, degree: string, field: string, startDate: Timestamp,
                     orderIndex: int, description: Option<string>, endDate: Option<Timestamp>,
                     newId: Id, now: Timestamp): EducationRecord
  {
    Entry(newId, profileId, orderIndex,
          EducationFields(institution, degree, field, startDate, description, endDate), now, now)
  }

  // ---------------------------------------------------------------------
  // update_info, stage by stage

  /**
   * `update_info` on the fields: institution, degree, field and
   * description are assigned and checked one after the other (a blank
   * description is written back as None), then the dates are assigned and
   * the range is checked.
   */
  function InfoApplied(f: EducationFields, institution: Option<string>, degree: Option<string>,
                       field: Option<string>, description: Option<string>,
                       startDate: Option<Timestamp>, endDate: Option<Timestamp>): Step<EducationFields>
  {
    if institution.Some? then
      var f1 := f.(institution := institution.value);
      var c := CheckInstitution(institution.value);
      if c.Fail? then Step(f1, c) else DegreeApplied(f1, degree, field, description, startDate, endDate)
    else DegreeApplied(f, degree, field, description, startDate, endDate)
  }

  function DegreeApplied(f: EducationFields, degree: Option<string>, field: Option<string>,
                         description: Option<string>, startDate: Option<Timestamp>,
                         endDate: Option<Timestamp>): Step<EducationFields>
  {
    if degree.Some? then
      var f1 := f.(degree := degree.value);
      var c := CheckDegree(degree.value);
      if c.Fail? then Step(f1, c) else FieldApplied(f1, field, description, startDate, endDate)
    else FieldApplied(f, field, description, startDate, endDate)
  }

  function FieldApplied(f: EducationFields, field: Option<string>, description: Option<string>,
                        startDate: Option<Timestamp>, endDate: Option<Timestamp>): Step<EducationFields>
  {
    if field.Some? then
      var f1 := f.(field := field.value);
      var c := CheckField(field.value);
      if c.Fail? then Step(f1, c) else DescriptionApplied(f1, description, startDate, endDate)
    else DescriptionApplied(f, description, startDate, endDate)
  }

  function DescriptionApplied(f: EducationFields, description: Option<string>,
                              startDate: Option<Timestamp>, endDate: Option<Timestamp>): Step<EducationFields>
  {
    if description.Some? then
      var f1 := f.(description := BlankToNone(description));
      var c := CheckDescription(description);
      if c.Fail? then Step(f1, c) else DatesApplied(f1, startDate, endDate)
    else DatesApplied(f, startDate, endDate)
  }

  function DatesApplied(f: EducationFields, startDate: Option<Timestamp>, endDate: Option<Timestamp>): Step<EducationFields>
  {
    var f1 := f.(startDate := Pick(startDate, f.startDate), endDate := PickOpt(endDate, f.endDate));
    Step(f1, CheckDateRange(f1.startDate, f1.endDate))
  }

  function InfoUpdated(r: EducationRecord, institution: Option<string>, degree: Option<string>,
                       field: Option<string>, description: Option<string>,
                       startDate: Option<Timestamp>, endDate: Option<Timestamp>, now: Timestamp): Step<EducationRecord>
  {
    Touched(r, InfoApplied(r.body, institution, degree, field, description, startDate, endDate), now)
  }

  /** The fields once every given argument of `update_info` is applied. */
  function InfoTarget(f: EducationFields, institution: Option<string>, degree: Option<string>,
                      field: Option<string>, description: Option<string>,
                      startDate: Option<Timestamp>, endDate: Option<Timestamp>): EducationFields
  {
    f.(institution := Pick(institution, f.institution), degree := Pick(degree, f.degree),
       field := Pick(field, f.field),
       description := if description.Some? then BlankToNone(description) else f.description,
       startDate := Pick(startDate, f.startDate), endDate := PickOpt(endDate, f.endDate))
  }

  predicate InfoAcceptable(f: EducationFields, institution: Option<string>, degree: Option<string>,
                           field: Option<string>, description: Option<string>,
                           startDate: Option<Timestamp>, endDate: Option<Timestamp>)
  {
    (institution.None? || RequiredTextOk(institution.value, MaxInstitutionLength))
    && (degree.None? || RequiredTextOk(degree.value, MaxDegreeLength))
    && (field.None? || RequiredTextOk(field.value, MaxFieldLength))
    && (description.None? || OptionalTextOk(BlankToNone(description), MaxDescriptionLength))
    && DateRangeOk(Pick(startDate, f.startDate), PickOpt(endDate, f.endDate))
  }

  lemma FieldAppliedMeaning(f: EducationFields, field: Option<string>, description: Option<string>,
                            startDate: Option<Timestamp>, endDate: Option<Timestamp>)
    ensures var s := FieldApplied(f, field, description, startDate, endDate);
            (s.outcome.Pass? <==> InfoAcceptable(f, None, None, field, description, startDate, endDate))
            && (s.outcome.Pass? ==> s.state == InfoTarget(f, None, None, field, description, startDate, endDate))
  {
  }

  lemma DegreeAppliedMeaning(f: EducationFields, degree: Option<string>, field: Option<string>,
                             description: Option<string>, startDate: Option<Timestamp>, endDate: Option<Timestamp>)
    ensures var s := DegreeApplied(f, degree, field, description, startDate, endDate);
            (s.outcome.Pass? <==> InfoAcceptable(f, None, degree, field, description, startDate, endDate))
            && (s.outcome.Pass? ==> s.state == InfoTarget(f, None, degree, field, description, startDate, endDate))
  {
    if degree.Some? {
      FieldAppliedMeaning(f.(degree := degree.value), field, description, startDate, endDate);
    } else {
      FieldAppliedMeaning(f, field, description, startDate, endDate);
    }
  }

  /**
   * `update_info` succeeds exactly when every given argument is acceptable
   * and the resulting dates form a range; then exactly the given fields
   * have changed, a blank description being stored as None.
   */
  lemma InfoAppliedMeaning(f: EducationFields, institution: Option<string>, degree: Option<string>,
                           field: Option<string>, description: Option<string>,
                           startDate: Option<Timestamp>, endDate: Option<Timestamp>)
    ensures var s := InfoApplied(f, institution, degree, field, description, startDate, endDate);
            (s.outcome.Pass? <==> InfoAcceptable(f, institution, degree, field, description, startDate, endDate))
            && (s.outcome.Pass? ==> s.state == InfoTarget(f, institution, degree, field, description, startDate, endDate))
  {
    if institution.Some? {
      DegreeAppliedMeaning(f.(institution := institution.value), degree, field, description, startDate, endDate);
    } else {
      DegreeAppliedMeaning(f, degree, field, description, startDate, endDate);
    }
  }

  /** A successful `update_info` keeps a valid education valid. */
  lemma InfoUpdatePreservesValid(r: EducationRecord, institution: Option<string>, degree: Option<string>,
                                 field: Option<string>, description: Option<string>,
                                 startDate: Option<Timestamp>, endDate: Option<Timestamp>, now: Timestamp)
    requires ValidEducation(r)
    requires InfoUpdated(r, institution, degree, field, description, startDate, endDate, now).outcome.Pass?
    ensures ValidEducation(InfoUpdated(r, institution, degree, field, description, startDate, endDate, now).state)
  {
    InfoAppliedMeaning(r.body, institution, degree, field, description, startDate, endDate);
  }

  /** Updating with a whitespace-only description stores None, as at creation. */
  lemma WhitespaceDescriptionDroppedOnUpdate(f: EducationFields, d: string)
    requires IsBlank(d)
    ensures InfoApplied(f, None, None, None, Some(d), None, None).state.description.None?
  {
  }

  /** `update_info` and `update_order` never change `created_at`; a successful one sets `updated_at` to now. */
  lemma UpdatesKeepCreation(r: EducationRecord, d: Option<string>, k: int, now: Timestamp)
    ensures InfoUpdated(r, None, None, None, d, None, None, now).state.createdAt == r.createdAt
    ensures Reindexed(r, k, now).state.createdAt == r.createdAt
    ensures k >= 0 ==> Reindexed(r, k, now).state.updatedAt == now
  {
  }

  // ---------------------------------------------------------------------
  // The entity object

  class Education {
    var id: Id
    var profileId: Id
    var institution: string
    var degree: string
    var field: string
    var startDate: Timestamp
    var orderIndex: int
    var description: Option<string>
    var endDate: Option<Timestamp>
    var createdAt: Timestamp
    var updatedAt: Timestamp

    function Record(): EducationRecord
      reads this
    {
      Entry(id, profileId, orderIndex,
            EducationFields(institution, degree, field, startDate, description, endDate),
            createdAt, updatedAt)
    }

    predicate Valid()
      reads this
    {
      ValidEducation(Record())
    }

    constructor Init(r: EducationRecord)
      ensures Record() == r
    {
      id, profileId, orderIndex := r.id, r.profileId, r.orderIndex;
      institution, degree, field := r.body.institution, r.body.degree, r.body.field;
      startDate, description, endDate := r.body.startDate, r.body.description, r.body.endDate;
      createdAt, updatedAt := r.createdAt, r.updatedAt;
    }

    static method Build(r: EducationRecord) returns (res: Result<Education, DomainError>)
      ensures res.Success? <==> Construct(r).Success?
      ensures res.Success? ==> fresh(res.value) && res.value.Record() == Construct(r).value && res.value.Valid()
      ensures res.Failure? ==> res.error == Construct(r).error
    {
      var c := Construct(r);
      if c.Failure? {
        return Failure(c.error);
      }
      var e := new Education.Init(c.value);
      return Success(e);
    }

    static method Create(profileId: Id, institution: string, degree: string, field: string, startDate: Timestamp,
                         orderIndex: int, description: Option<string>, endDate: Option<Timestamp>,
                         newId: Id, now: Timestamp) returns (res: Result<Education, DomainError>)
      ensures var r := NewRecord(profileId, institution, degree, field, startDate, orderIndex, description, endDate, newId, now);
              (res.Success? <==> Construct(r).Success?)
              && (res.Success? ==> fresh(res.value) && res.value.Record() == Construct(r).value && res.value.Valid())
              && (res.Failure? ==> res.error == Construct(r).error)
    {
      res := Build(NewRecord(profileId, institution, degree, field, startDate, orderIndex, description, endDate, newId, now));
    }

    method UpdateInfo(newInstitution: Option<string>, newDegree: Option<string>, newField: Option<string>,
                      newDescription: Option<string>, newStart: Option<Timestamp>, newEnd: Option<Timestamp>,
                      now: Timestamp) returns (o: Outcome)
      modifies this
      ensures Record() == InfoUpdated(old(Record()), newInstitution, newDegree, newField, newDescription, newStart, newEnd, now).state
      ensures o == InfoUpdated(old(Record()), newInstitution, newDegree, newField, newDescription, newStart, newEnd, now).outcome
    {
      o := ApplyInfo(newInstitution, newDegree, newField, newDescription, newStart, newEnd);
      if o.Fail? { return; }
      updatedAt := now;
    }

    /** The assignments and checks of `update_info`, before `_mark_as_updated`. */
    method ApplyInfo(newInstitution: Option<string>, newDegree: Option<string>, newField: Option<string>,
                     newDescription: Option<string>, newStart: Option<Timestamp>, newEnd: Option<Timestamp>)
      returns (o: Outcome)
      modifies this
      ensures Record() == old(Record()).(body := InfoApplied(old(Record()).body, newInstitution, newDegree, newField, newDescription, newStart, newEnd).state)
      ensures o == InfoApplied(old(Record()).body, newInstitution, newDegree, newField, newDescription, newStart, newEnd).outcome
    {
      if newInstitution.Some? {
        institution := newInstitution.value;
        o := CheckInstitution(institution);
        if o.Fail? { return; }
      }
      o := ApplyDegree(newDegree, newField, newDescription, newStart, newEnd);
    }

    method ApplyDegree(newDegree: Option<string>, newField: Option<string>, newDescription: Option<string>,
                       newStart: Option<Timestamp>, newEnd: Option<Timestamp>) returns (o: Outcome)
      modifies this
      ensures Record() == old(Record()).(body := DegreeApplied(old(Record()).body, newDegree, newField, newDescription, newStart, newEnd).state)
      ensures o == DegreeApplied(old(Record()).body, newDegree, newField, newDescription, newStart, newEnd).outcome
    {
      if newDegree.Some? {
        degree := newDegree.value;
        o := CheckDegree(degree);
        if o.Fail? { return; }
      }
      o := ApplyField(newField, newDescription, newStart, newEnd);
    }

    method ApplyField(newField: Option<string>, newDescription: Option<string>,
                      newStart: Option<Timestamp>, newEnd: Option<Timestamp>) returns (o: Outcome)
      modifies this
      ensures Record() == old(Record()).(body := FieldApplied(old(Record()).body, newField, newDescription, newStart, newEnd).state)
      ensures o == FieldApplied(old(Record()).body, newField, newDescription, newStart, newEnd).outcome
    {
      if newField.Some? {
        field := newField.value;
        o := CheckField(field);
        if o.Fail? { return; }
      }
      o := ApplyDescription(newDescription, newStart, newEnd);
    }

    method ApplyDescription(newDescription: Option<string>, newStart: Option<Timestamp>, newEnd: Option<Timestamp>)
      returns (o: Outcome)
      modifies this
      ensures Record() == old(Record()).(body := DescriptionApplied(old(Record()).body, newDescription, newStart, newEnd).state)
      ensures o == DescriptionApplied(old(Record()).body, newDescription, newStart, newEnd).outcome
    {
      if newDescription.Some? {
        o := CheckDescription(newDescription);
        description := BlankToNone(newDescription);
        if o.Fail? { return; }
      }
      o := ApplyDates(newStart, newEnd);
    }

    method ApplyDates(newStart: Option<Timestamp>, newEnd: Option<Timestamp>) returns (o: Outcome)
      modifies this
      ensures Record() == old(Record()).(body := DatesApplied(old(Record()).body, newStart, newEnd).state)
      ensures o == DatesApplied(old(Record()).body, newStart, newEnd).outcome
    {
      if newStart.Some? {
        startDate := newStart.value;
      }
      if newEnd.Some? {
        endDate := newEnd;
      }
      o := CheckDateRange(startDate, endDate);
    }

    method UpdateOrder(newIndex: int, now: Timestamp) returns (o: Outcome)
      modifies this
      ensures Record() == Reindexed(old(Record()), newIndex, now).state
      ensures o == Reindexed(old(Record()), newIndex, now).outcome
    {
      orderIndex := newIndex;
      o := CheckOrderIndex(orderIndex);
      if o.Fail? { return; }
      updatedAt := now;
    }

    /** `is_ongoing`. */
    method IsOngoing() returns (b: bool)
      ensures b <==> endDate.None?
    {
      b := endDate.None?;
    }
  }
}
