/**
 * The AdditionalTraining entity (app/domain/entities/additional_training.py):
 * a course or workshop by a provider, completed on a date, with an
 * optional duration, certificate URL and description. There is no date
 * range to keep, so every rule is about one field.
 */
module AdditionalTrainings {
  import opened Common
  import opened Patterns

  const MaxTitleLength: nat := 100
  const MaxProviderLength: nat := 100
  const MaxDurationLength: nat := 50
  const MaxDescriptionLength: nat := 500

  datatype TrainingFields = TrainingFields(
    title: string,
    provider: string,
    completionDate: Timestamp,
    duration: Option<string>,
    certificateUrl: Option<string>,
    description: Option<string>)

  type TrainingRecord = Entry<TrainingFields>

  predicate FieldsOk(f: TrainingFields) {
    RequiredTextOk(f.title, MaxTitleLength)
    && RequiredTextOk(f.provider, MaxProviderLength)
    && OptionalTextOk(f.duration, MaxDurationLength)
    && UrlOk(f.certificateUrl)
    && OptionalTextOk(f.description, MaxDescriptionLength)
  }

  /** The invariant every constructed AdditionalTraining satisfies. */
  predicate ValidTraining(r: TrainingRecord) {
    PlacementOk(r) && FieldsOk(r.body)
  }

  function CheckTitle(s: string): Outcome {
    CheckRequiredText(s, InvalidTitle, "title", MaxTitleLength)
  }

  function CheckProvider(s: string): Outcome {
    CheckRequiredText(s, InvalidProvider, "provider", MaxProviderLength)
  }

  function CheckDuration(d: Option<string>): Outcome {
    CheckCoercedText(d, "duration", MaxDurationLength)
  }

  function CheckDescription(d: Option<string>): Outcome {
    CheckCoercedText(d, "description", MaxDescriptionLength)
  }

  /** The three optional fields with blank values coerced to None. */
  function Normalized(r: TrainingRecord): TrainingRecord {
    r.(body := r.body.(duration := BlankToNone(r.body.duration),
                       certificateUrl := BlankToNone(r.body.certificateUrl),
                       description := BlankToNone(r.body.description)))
  }

  /**
   * `__post_init__`: profile_id, title, provider, duration, certificate
   * URL, description and order_index, in that order.
   */
  function Construct(r: TrainingRecord): (res: Result<TrainingRecord, DomainError>)
    ensures res.Success? <==> ValidTraining(Normalized(r))
    ensures res.Success? ==> res.value == Normalized(r)
    ensures ValidTraining(r) ==> res == Success(r)
  {
    var normalized := Normalized(r);
    :- CheckProfileId(r.profileId);
    :- CheckTitle(r.body.title);
    :- CheckProvider(r.body.provider);
    :- CheckDuration(r.body.duration);
    :- CheckCoercedUrl(r.body.certificateUrl);
    :- CheckDescription(r.body.description);
    :- CheckOrderIndex(r.orderIndex);
    Success(normalized)
  }

  /** A blank provider raises InvalidProviderError once profile and title are fine. */
  lemma ConstructChecksInOrder(r: TrainingRecord)
    ensures !IsBlank(r.profileId) && IsBlank(r.body.title) ==> Construct(r) == Failure(InvalidTitle)
    ensures !IsBlank(r.profileId) && RequiredTextOk(r.body.title, MaxTitleLength) && IsBlank(r.body.provider)
            ==> Construct(r) == Failure(InvalidProvider)
  {
  }

  /** The record `AdditionalTraining.create` builds. */
  function NewRecord(profileId: Id, title: string, provider: string, completionDate: Timestamp, orderIndex: int,
                     duration: Option<string>, certificateUrl: Option<string>, description: Option<string>,
                     newId: Id, now: Timestamp): TrainingRecord
  {
    Entry(newId, profileId, orderIndex,
          TrainingFields(title, provider, completionDate, duration, certificateUrl, description), now, now)
  }

  // ---------------------------------------------------------------------
  // update_info, stage by stage

  /**
   * `update_info` on the fields: title and provider are assigned and
   * checked, the completion date is assigned, then duration, certificate
   * URL and description are assigned, coerced and checked.
   */
  function InfoApplied(f: TrainingFields, title: Option<string>, provider: Option<string>,
                       completionDate: Option<Timestamp>, duration: Option<string>,
                       certificateUrl: Option<string>, description: Option<string>): Step<TrainingFields>
  {
    if title.Some? then
      var f1 := f.(title := title.value);
      var c := CheckTitle(title.value);
      if c.Fail? then Step(f1, c) else ProviderApplied(f1, provider, completionDate, duration, certificateUrl, description)
    else ProviderApplied(f, provider, completionDate, duration, certificateUrl, description)
  }

  function ProviderApplied(f: TrainingFields, provider: Option<string>, completionDate: Option<Timestamp>,
                           duration: Option<string>, certificateUrl: Option<string>,
                           description: Option<string>): Step<TrainingFields>
  {
    if provider.Some? then
      var f1 := f.(provider := provider.value);
      var c := CheckProvider(provider.value);
      if c.Fail? then Step(f1, c) else DurationApplied(f1.(completionDate := Pick(completionDate, f1.completionDate)),
                                                       duration, certificateUrl, description)
    else DurationApplied(f.(completionDate := Pick(completionDate, f.completionDate)), duration, certificateUrl, description)
  }

  function DurationApplied(f: TrainingFields, duration: Option<string>, certificateUrl: Option<string>,
                           description: Option<string>): Step<TrainingFields>
  {
    if duration.Some? then
      var f1 := f.(duration := BlankToNone(duration));
      var c := CheckDuration(duration);
      if c.Fail? then Step(f1, c) else CertificateApplied(f1, certificateUrl, description)
    else CertificateApplied(f, certificateUrl, description)
  }

  function CertificateApplied(f: TrainingFields, certificateUrl: Option<string>, description: Option<string>): Step<TrainingFields>
  {
    if certificateUrl.Some? then
      var f1 := f.(certificateUrl := BlankToNone(certificateUrl));
      var c := CheckCoercedUrl(certificateUrl);
      if c.Fail? then Step(f1, c) else DescriptionApplied(f1, description)
    else DescriptionApplied(f, description)
  }

  function DescriptionApplied(f: TrainingFields, description: Option<string>): Step<TrainingFields>
  {
    if description.Some? then Step(f.(description := BlankToNone(description)), CheckDescription(description))
    else Step(f, Pass)
  }

  function InfoUpdated(r: TrainingRecord, title: Option<string>, provider: Option<string>,
                       completionDate: Option<Timestamp>, duration: Option<string>,
                       certificateUrl: Option<string>, description: Option<string>, now: Timestamp): Step<TrainingRecord>
  {
    Touched(r, InfoApplied(r.body, title, provider, completionDate, duration, certificateUrl, description), now)
  }

  /** The fields once every given argument of `update_info` is applied. */
  function InfoTarget(f: TrainingFields, title: Option<string>, provider: Option<string>,
                      completionDate: Option<Timestamp>, duration: Option<string>,
                      certificateUrl: Option<string>, description: Option<string>): TrainingFields
  {
    f.(title := Pick(title, f.title), provider := Pick(provider, f.provider),
       completionDate := Pick(completionDate, f.completionDate),
       duration := if duration.Some? then BlankToNone(duration) else f.duration,
       certificateUrl := if certificateUrl.Some? then BlankToNone(certificateUrl) else f.certificateUrl,
       description := if description.Some? then BlankToNone(description) else f.description)
  }

  predicate InfoAcceptable(title: Option<string>, provider: Option<string>, duration: Option<string>,
                           certificateUrl: Option<string>, description: Option<string>)
  {
    (title.None? || RequiredTextOk(title.value, MaxTitleLength))
    && (provider.None? || RequiredTextOk(provider.value, MaxProviderLength))
    && (duration.None? || OptionalTextOk(BlankToNone(duration), MaxDurationLength))
    && (certificateUrl.None? || UrlOk(BlankToNone(certificateUrl)))
    && (description.None? || OptionalTextOk(BlankToNone(description), MaxDescriptionLength))
  }

  lemma DurationAppliedMeaning(f: TrainingFields, duration: Option<string>, certificateUrl: Option<string>,
                               description: Option<string>)
    ensures var s := DurationApplied(f, duration, certificateUrl, description);
            (s.outcome.Pass? <==> InfoAcceptable(None, None, duration, certificateUrl, description))
            && (s.outcome.Pass? ==> s.state == InfoTarget(f, None, None, None, duration, certificateUrl, description))
  {
  }

  lemma ProviderAppliedMeaning(f: TrainingFields, provider: Option<string>, completionDate: Option<Timestamp>,
                               duration: Option<string>, certificateUrl: Option<string>, description: Option<string>)
    ensures var s := ProviderApplied(f, provider, completionDate, duration, certificateUrl, description);
            (s.outcome.Pass? <==> InfoAcceptable(None, provider, duration, certificateUrl, description))
            && (s.outcome.Pass? ==> s.state == InfoTarget(f, None, provider, completionDate, duration, certificateUrl, description))
  {
    var f1 := if provider.Some? then f.(provider := provider.value) else f;
    DurationAppliedMeaning(f1.(completionDate := Pick(completionDate, f1.completionDate)), duration, certificateUrl, description);
  }

  /**
   * `update_info` succeeds exactly when every given argument is
   * acceptable, and then exactly the given fields have changed, blank
   * optional fields being stored as None.
   */
  lemma InfoAppliedMeaning(f: TrainingFields, title: Option<string>, provider: Option<string>,
                           completionDate: Option<Timestamp>, duration: Option<string>,
                           certificateUrl: Option<string>, description: Option<string>)
    ensures var s := InfoApplied(f, title, provider, completionDate, duration, certificateUrl, description);
            (s.outcome.Pass? <==> InfoAcceptable(title, provider, duration, certificateUrl, description))
            && (s.outcome.Pass? ==> s.state == InfoTarget(f, title, provider, completionDate, duration, certificateUrl, description))
  {
    var f1 := if title.Some? then f.(title := title.value) else f;
    ProviderAppliedMeaning(f1, provider, completionDate, duration, certificateUrl, description);
  }

  /** A successful `update_info` keeps a valid training valid. */
  lemma InfoUpdatePreservesValid(r: TrainingRecord, title: Option<string>, provider: Option<string>,
                                 completionDate: Option<Timestamp>, duration: Option<string>,
                                 certificateUrl: Option<string>, description: Option<string>, now: Timestamp)
    requires ValidTraining(r)
    requires InfoUpdated(r, title, provider, completionDate, duration, certificateUrl, description, now).outcome.Pass?
    ensures ValidTraining(InfoUpdated(r, title, provider, completionDate, duration, certificateUrl, description, now).state)
  {
    InfoAppliedMeaning(r.body, title, provider, completionDate, duration, certificateUrl, description);
  }

  /** Changing only the completion date always succeeds: no rule relates it to anything. */
  lemma CompletionDateAlwaysAccepted(r: TrainingRecord, d: Timestamp, now: Timestamp)
    ensures InfoUpdated(r, None, None, Some(d), None, None, None, now)
            == Step(r.(body := r.body.(completionDate := d), updatedAt := now), Pass)
  {
  }

  // ---------------------------------------------------------------------
  // The entity object

  class AdditionalTraining {
    var id: Id
    var profileId: Id
    var title: string
    var provider: string
    var completionDate: Timestamp
    var orderIndex: int
    var duration: Option<string>
    var certificateUrl: Option<string>
    var description: Option<string>
    var createdAt: Timestamp
    var updatedAt: Timestamp

    function Record(): TrainingRecord
      reads this
    {
      Entry(id, profileId, orderIndex,
            TrainingFields(title, provider, completionDate, duration, certificateUrl, description),
            createdAt, updatedAt)
    }

    predicate Valid()
      reads this
    {
      ValidTraining(Record())
    }

    constructor Init(r: TrainingRecord)
      ensures Record() == r
    {
      id, profileId, orderIndex := r.id, r.profileId, r.orderIndex;
      title, provider, completionDate := r.body.title, r.body.provider, r.body.completionDate;
      duration, certificateUrl, description := r.body.duration, r.body.certificateUrl, r.body.description;
      createdAt, updatedAt := r.createdAt, r.updatedAt;
    }

    static method Build(r: TrainingRecord) returns (res: Result<AdditionalTraining, DomainError>)
      ensures res.Success? <==> Construct(r).Success?
      ensures res.Success? ==> fresh(res.value) && res.value.Record() == Construct(r).value && res.value.Valid()
      ensures res.Failure? ==> res.error == Construct(r).error
    {
      var c := Construct(r);
      if c.Failure? {
        return Failure(c.error);
      }
      var t := new AdditionalTraining.Init(c.value);
      return Success(t);
    }

    static method Create(profileId: Id, title: string, provider: string, completionDate: Timestamp, orderIndex: int,
                         duration: Option<string>, certificateUrl: Option<string>, description: Option<string>,
                         newId: Id, now: Timestamp) returns (res: Result<AdditionalTraining, DomainError>)
      ensures var r := NewRecord(profileId, title, provider, completionDate, orderIndex, duration, certificateUrl, description, newId, now);
              (res.Success? <==> Construct(r).Success?)
              && (res.Success? ==> fresh(res.value) && res.value.Record() == Construct(r).value && res.value.Valid())
              && (res.Failure? ==> res.error == Construct(r).error)
    {
      res := Build(NewRecord(profileId, title, provider, completionDate, orderIndex, duration, certificateUrl, description, newId, now));
    }

    method UpdateInfo(newTitle: Option<string>, newProvider: Option<string>, newCompletion: Option<Timestamp>,
                      newDuration: Option<string>, newCertificateUrl: Option<string>, newDescription: Option<string>,
                      now: Timestamp) returns (o: Outcome)
      modifies this
      ensures Record() == InfoUpdated(old(Record()), newTitle, newProvider, newCompletion, newDuration, newCertificateUrl, newDescription, now).state
      ensures o == InfoUpdated(old(Record()), newTitle, newProvider, newCompletion, newDuration, newCertificateUrl, newDescription, now).outcome
    {
      o := ApplyInfo(newTitle, newProvider, newCompletion, newDuration, newCertificateUrl, newDescription);
      if o.Fail? { return; }
      updatedAt := now;
    }

    /** The assignments and checks of `update_info`, before `_mark_as_updated`. */
    method ApplyInfo(newTitle: Option<string>, newProvider: Option<string>, newCompletion: Option<Timestamp>,
                     newDuration: Option<string>, newCertificateUrl: Option<string>, newDescription: Option<string>)
      returns (o: Outcome)
      modifies this
      ensures Record() == old(Record()).(body := InfoApplied(old(Record()).body, newTitle, newProvider, newCompletion, newDuration, newCertificateUrl, newDescription).state)
      ensures o == InfoApplied(old(Record()).body, newTitle, newProvider, newCompletion, newDuration, newCertificateUrl, newDescription).outcome
    {
      if newTitle.Some? {
        title := newTitle.value;
        o := CheckTitle(title);
        if o.Fail? { return; }
      }
      o := ApplyProvider(newProvider, newCompletion, newDuration, newCertificateUrl, newDescription);
    }

    method ApplyProvider(newProvider: Option<string>, newCompletion: Option<Timestamp>, newDuration: Option<string>,
                         newCertificateUrl: Option<string>, newDescription: Option<string>) returns (o: Outcome)
      modifies this
      ensures Record() == old(Record()).(body := ProviderApplied(old(Record()).body, newProvider, newCompletion, newDuration, newCertificateUrl, newDescription).state)
      ensures o == ProviderApplied(old(Record()).body, newProvider, newCompletion, newDuration, newCertificateUrl, newDescription).outcome
    {
      if newProvider.Some? {
        provider := newProvider.value;
        o := CheckProvider(provider);
        if o.Fail? { return; }
      }
      if newCompletion.Some? {
        completionDate := newCompletion.value;
      }
      o := ApplyDuration(newDuration, newCertificateUrl, newDescription);
    }

    method ApplyDuration(newDuration: Option<string>, newCertificateUrl: Option<string>, newDescription: Option<string>)
      returns (o: Outcome)
      modifies this
      ensures Record() == old(Record()).(body := DurationApplied(old(Record()).body, newDuration, newCertificateUrl, newDescription).state)
      ensures o == DurationApplied(old(Record()).body, newDuration, newCertificateUrl, newDescription).outcome
    {
      if newDuration.Some? {
        o := CheckDuration(newDuration);
        duration := BlankToNone(newDuration);
        if o.Fail? { return; }
      }
      o := ApplyCertificate(newCertificateUrl, newDescription);
    }

    method ApplyCertificate(newCertificateUrl: Option<string>, newDescription: Option<string>) returns (o: Outcome)
      modifies this
      ensures Record() == old(Record()).(body := CertificateApplied(old(Record()).body, newCertificateUrl, newDescription).state)
      ensures o == CertificateApplied(old(Record()).body, newCertificateUrl, newDescription).outcome
    {
      if newCertificateUrl.Some? {
        o := CheckCoercedUrl(newCertificateUrl);
        certificateUrl := BlankToNone(newCertificateUrl);
        if o.Fail? { return; }
      }
      o := Pass;
      if newDescription.Some? {
        o := CheckDescription(newDescription);
        description := BlankToNone(newDescription);
      }
    }

    method UpdateOrder(newIndex: int, now: Timestamp) returns (o: Outcome)
      modifies this
      ensures Record() == Reindexed(old(Record()), newIndex, now).state
      ensures o == Reindexed(old(Record()), newIndex, now).outcome
    {
      orderIndex := newIndex;
      o := CheckOrderIndex(orderIndex);
      if o.Fail? { return; }
      updatedAt := now;
    }
  }
}
