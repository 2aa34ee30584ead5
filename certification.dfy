/**
 * The Certification entity (app/domain/entities/certification.py): a
 * certificate issued on a date by an issuer, possibly expiring, with an
 * optional credential id and verification URL. Updates assign first and
 * validate afterwards.
 */
module Certifications {
  import opened Common
  import opened Patterns

  const MaxTitleLength: nat := 100
  const MaxIssuerLength: nat := 100
  const MaxCredentialIdLength: nat := 100

  datatype CertificationFields = CertificationFields(
    title: string,
    issuer: string,
    issueDate: Timestamp,
    expiryDate: Option<Timestamp>,
    credentialId: Option<string>,
    credentialUrl: Option<string>)

  type CertificationRecord = Entry<CertificationFields>

  predicate FieldsOk(f: CertificationFields) {
    RequiredTextOk(f.title, MaxTitleLength)
    && RequiredTextOk(f.issuer, MaxIssuerLength)
    && DateRangeOk(f.issueDate, f.expiryDate)
    && OptionalTextOk(f.credentialId, MaxCredentialIdLength)
    && UrlOk(f.credentialUrl)
  }

  /** The invariant every constructed Certification satisfies. */
  predicate ValidCertification(r: CertificationRecord) {
    PlacementOk(r) && FieldsOk(r.body)
  }

  function CheckTitle(s: string): Outcome {
    CheckRequiredText(s, InvalidTitle, "title", MaxTitleLength)
  }

  function CheckIssuer(s: string): Outcome {
    CheckRequiredText(s, InvalidIssuer, "issuer", MaxIssuerLength)
  }

  function CheckCredentialId(c: Option<string>): Outcome {
    CheckCoercedText(c, "credential_id", MaxCredentialIdLength)
  }

  /** Both optional credential fields with blank values coerced to None. */
  function Normalized(r: CertificationRecord): CertificationRecord {
    r.(body := r.body.(credentialId := BlankToNone(r.body.credentialId),
                       credentialUrl := BlankToNone(r.body.credentialUrl)))
  }

  /**
   * `__post_init__`: profile_id, title, issuer, the date range, the
   * credential id, the credential URL and order_index, in that order.
   */
  function Construct(r: CertificationRecord): (res: Result<CertificationRecord, DomainError>)
    ensures res.Success? <==> ValidCertification(Normalized(r))
    ensures res.Success? ==> res.value == Normalized(r)
    ensures ValidCertification(r) ==> res == Success(r)
  {
    var normalized := Normalized(r);
    :- CheckProfileId(r.profileId);
    :- CheckTitle(r.body.title);
    :- CheckIssuer(r.body.issuer);
    :- CheckDateRange(r.body.issueDate, r.body.expiryDate);
    :- CheckCredentialId(r.body.credentialId);
    :- CheckCoercedUrl(r.body.credentialUrl);
    :- CheckOrderIndex(r.orderIndex);
    Success(normalized)
  }

  /** An expiry on or before the issue date is reported before any credential problem. */
  lemma ConstructChecksInOrder(r: CertificationRecord)
    ensures !IsBlank(r.profileId) && IsBlank(r.body.title) ==> Construct(r) == Failure(InvalidTitle)
    ensures !IsBlank(r.profileId) && RequiredTextOk(r.body.title, MaxTitleLength) && IsBlank(r.body.issuer)
            ==> Construct(r) == Failure(InvalidIssuer)
    ensures !IsBlank(r.profileId) && FieldsOk(r.body.(expiryDate := None))
            && r.body.expiryDate.Some? && r.body.expiryDate.value <= r.body.issueDate
            ==> Construct(r) == Failure(InvalidDateRange(r.body.issueDate, r.body.expiryDate.value))
  {
  }

  /** The record `Certification.create` builds. */
  function NewRecord(profileId: Id, title: string, issuer: string, issueDate: Timestamp, orderIndex: int,
                     expiryDate: Option<Timestamp>, credentialId: Option<string>, credentialUrl: Option<string>,
                     newId: Id, now: Timestamp): CertificationRecord
  {
    Entry(newId, profileId, orderIndex,
          CertificationFields(title, issuer, issueDate, expiryDate, credentialId, credentialUrl), now, now)
  }

  // ---------------------------------------------------------------------
  // update_info, stage by stage

  /**
   * `update_info` on the fields: the title and the issuer are assigned and
   * checked, the two dates are assigned, the credential id and URL are
   * assigned, coerced and checked, and the date range is checked last.
   */
  function InfoApplied(f: CertificationFields, title: Option<string>, issuer: Option<string>,
                       issueDate: Option<Timestamp>, expiryDate: Option<Timestamp>,
                       credentialId: Option<string>, credentialUrl: Option<string>): Step<CertificationFields>
  {
    if title.Some? then
      var f1 := f.(title := title.value);
      var c := CheckTitle(title.value);
      if c.Fail? then Step(f1, c) else IssuerApplied(f1, issuer, issueDate, expiryDate, credentialId, credentialUrl)
    else IssuerApplied(f, issuer, issueDate, expiryDate, credentialId, credentialUrl)
  }

  function IssuerApplied(f: CertificationFields, issuer: Option<string>,
                         issueDate: Option<Timestamp>, expiryDate: Option<Timestamp>,
                         credentialId: Option<string>, credentialUrl: Option<string>): Step<CertificationFields>
  {
    if issuer.Some? then
      var f1 := f.(issuer := issuer.value);
      var c := CheckIssuer(issuer.value);
      if c.Fail? then Step(f1, c) else DatesAssigned(f1, issueDate, expiryDate, credentialId, credentialUrl)
    else DatesAssigned(f, issueDate, expiryDate, credentialId, credentialUrl)
  }

  function DatesAssigned(f: CertificationFields, issueDate: Option<Timestamp>, expiryDate: Option<Timestamp>,
                         credentialId: Option<string>, credentialUrl: Option<string>): Step<CertificationFields>
  {
    CredentialIdApplied(f.(issueDate := Pick(issueDate, f.issueDate), expiryDate := PickOpt(expiryDate, f.expiryDate)),
                        credentialId, credentialUrl)
  }

  function CredentialIdApplied(f: CertificationFields, credentialId: Option<string>,
                               credentialUrl: Option<string>): Step<CertificationFields>
  {
    if credentialId.Some? then
      var f1 := f.(credentialId := BlankToNone(credentialId));
      var c := CheckCredentialId(credentialId);
      if c.Fail? then Step(f1, c) else CredentialUrlApplied(f1, credentialUrl)
    else CredentialUrlApplied(f, credentialUrl)
  }

  function CredentialUrlApplied(f: CertificationFields, credentialUrl: Option<string>): Step<CertificationFields>
  {
    if credentialUrl.Some? then
      var f1 := f.(credentialUrl := BlankToNone(credentialUrl));
      var c := CheckCoercedUrl(credentialUrl);
      if c.Fail? then Step(f1, c) else Step(f1, CheckDateRange(f1.issueDate, f1.expiryDate))
    else Step(f, CheckDateRange(f.issueDate, f.expiryDate))
  }

  function InfoUpdated(r: CertificationRecord, title: Option<string>, issuer: Option<string>,
                       issueDate: Option<Timestamp>, expiryDate: Option<Timestamp>,
                       credentialId: Option<string>, credentialUrl: Option<string>, now: Timestamp): Step<CertificationRecord>
  {
    Touched(r, InfoApplied(r.body, title, issuer, issueDate, expiryDate, credentialId, credentialUrl), now)
  }

  /** The fields once every given argument of `update_info` is applied. */
  function InfoTarget(f: CertificationFields, title: Option<string>, issuer: Option<string>,
                      issueDate: Option<Timestamp>, expiryDate: Option<Timestamp>,
                      credentialId: Option<string>, credentialUrl: Option<string>): CertificationFields
  {
    f.(title := Pick(title, f.title), issuer := Pick(issuer, f.issuer),
       issueDate := Pick(issueDate, f.issueDate), expiryDate := PickOpt(expiryDate, f.expiryDate),
       credentialId := if credentialId.Some? then BlankToNone(credentialId) else f.credentialId,
       credentialUrl := if credentialUrl.Some? then BlankToNone(credentialUrl) else f.credentialUrl)
  }

  predicate InfoAcceptable(f: CertificationFields, title: Option<string>, issuer: Option<string>,
                           issueDate: Option<Timestamp>, expiryDate: Option<Timestamp>,
                           credentialId: Option<string>, credentialUrl: Option<string>)
  {
    (title.None? || RequiredTextOk(title.value, MaxTitleLength))
    && (issuer.None? || RequiredTextOk(issuer.value, MaxIssuerLength))
    && (credentialId.None? || OptionalTextOk(BlankToNone(credentialId), MaxCredentialIdLength))
    && (credentialUrl.None? || UrlOk(BlankToNone(credentialUrl)))
    && DateRangeOk(Pick(issueDate, f.issueDate), PickOpt(expiryDate, f.expiryDate))
  }

  lemma CredentialIdAppliedMeaning(f: CertificationFields, credentialId: Option<string>, credentialUrl: Option<string>)
    ensures var s := CredentialIdApplied(f, credentialId, credentialUrl);
            (s.outcome.Pass? <==> InfoAcceptable(f, None, None, None, None, credentialId, credentialUrl))
            && (s.outcome.Pass? ==> s.state == InfoTarget(f, None, None, None, None, credentialId, credentialUrl))
  {
  }

  lemma IssuerAppliedMeaning(f: CertificationFields, issuer: Option<string>,
                             issueDate: Option<Timestamp>, expiryDate: Option<Timestamp>,
                             credentialId: Option<string>, credentialUrl: Option<string>)
    ensures var s := IssuerApplied(f, issuer, issueDate, expiryDate, credentialId, credentialUrl);
            (s.outcome.Pass? <==> InfoAcceptable(f, None, issuer, issueDate, expiryDate, credentialId, credentialUrl))
            && (s.outcome.Pass? ==> s.state == InfoTarget(f, None, issuer, issueDate, expiryDate, credentialId, credentialUrl))
  {
    var f1 := if issuer.Some? then f.(issuer := issuer.value) else f;
    CredentialIdAppliedMeaning(f1.(issueDate := Pick(issueDate, f.issueDate), expiryDate := PickOpt(expiryDate, f.expiryDate)),
                               credentialId, credentialUrl);
  }

  /**
   * `update_info` succeeds exactly when every given argument is acceptable
   * and the resulting dates form a range; then exactly the given fields
   * have changed, blank credential fields being stored as None.
   */
  lemma InfoAppliedMeaning(f: CertificationFields, title: Option<string>, issuer: Option<string>,
                           issueDate: Option<Timestamp>, expiryDate: Option<Timestamp>,
                           credentialId: Option<string>, credentialUrl: Option<string>)
    ensures var s := InfoApplied(f, title, issuer, issueDate, expiryDate, credentialId, credentialUrl);
            (s.outcome.Pass? <==> InfoAcceptable(f, title, issuer, issueDate, expiryDate, credentialId, credentialUrl))
            && (s.outcome.Pass? ==> s.state == InfoTarget(f, title, issuer, issueDate, expiryDate, credentialId, credentialUrl))
  {
    if title.Some? {
      IssuerAppliedMeaning(f.(title := title.value), issuer, issueDate, expiryDate, credentialId, credentialUrl);
    } else {
      IssuerAppliedMeaning(f, issuer, issueDate, expiryDate, credentialId, credentialUrl);
    }
  }

  /** A successful `update_info` keeps a valid certification valid. */
  lemma InfoUpdatePreservesValid(r: CertificationRecord, title: Option<string>, issuer: Option<string>,
                                 issueDate: Option<Timestamp>, expiryDate: Option<Timestamp>,
                                 credentialId: Option<string>, credentialUrl: Option<string>, now: Timestamp)
    requires ValidCertification(r)
    requires InfoUpdated(r, title, issuer, issueDate, expiryDate, credentialId, credentialUrl, now).outcome.Pass?
    ensures ValidCertification(InfoUpdated(r, title, issuer, issueDate, expiryDate, credentialId, credentialUrl, now).state)
  {
    InfoAppliedMeaning(r.body, title, issuer, issueDate, expiryDate, credentialId, credentialUrl);
  }

  /**
   * A rejected credential URL stays in the entity: the call raises, but
   * the URL was already assigned, as were the dates given with it.
   */
  lemma RejectedUrlStays(f: CertificationFields, url: string)
    requires !IsBlank(url) && !UrlPattern(url)
    ensures InfoApplied(f, None, None, None, None, None, Some(url))
            == Step(f.(credentialUrl := Some(url)), Fail(InvalidUrl(url)))
  {
  }

  /** Passing None for the expiry date never removes it, so `update_info` cannot make a certification non-expiring. */
  lemma ExpiryNotCleared(f: CertificationFields)
    ensures InfoApplied(f, None, None, None, None, None, None).state.expiryDate == f.expiryDate
  {
  }

  // ---------------------------------------------------------------------
  // Expiry

  /** `is_expired` with the clock reading `now` as a parameter: strictly past the expiry date. */
  predicate ExpiredAt(f: CertificationFields, now: Timestamp) {
    f.expiryDate.Some? && now > f.expiryDate.value
  }

  /**
   * A certification without expiry never expires, one with an expiry
   * stays expired once it has expired, and on its expiry date itself it is
   * not yet expired.
   */
  lemma ExpiryIsMonotone(f: CertificationFields, t: Timestamp, u: Timestamp)
    ensures f.expiryDate.None? ==> !ExpiredAt(f, t)
    ensures ExpiredAt(f, t) && t <= u ==> ExpiredAt(f, u)
    ensures f.expiryDate == Some(t) ==> !ExpiredAt(f, t) && ExpiredAt(f, t + 1)
  {
  }

  /** A valid certification is never expired at its own issue date. */
  lemma NotExpiredWhenIssued(r: CertificationRecord)
    requires ValidCertification(r)
    ensures !ExpiredAt(r.body, r.body.issueDate)
  {
  }

  // ---------------------------------------------------------------------
  // The entity object

  class Certification {
    var id: Id
    var profileId: Id
    var title: string
    var issuer: string
    var issueDate: Timestamp
    var orderIndex: int
    var expiryDate: Option<Timestamp>
    var credentialId: Option<string>
    var credentialUrl: Option<string>
    var createdAt: Timestamp
    var updatedAt: Timestamp

    function Record(): CertificationRecord
      reads this
    {
      Entry(id, profileId, orderIndex,
            CertificationFields(title, issuer, issueDate, expiryDate, credentialId, credentialUrl),
            createdAt, updatedAt)
    }

    predicate Valid()
      reads this
    {
      ValidCertification(Record())
    }

    constructor Init(r: CertificationRecord)
      ensures Record() == r
    {
      id, profileId, orderIndex := r.id, r.profileId, r.orderIndex;
      title, issuer, issueDate, expiryDate := r.body.title, r.body.issuer, r.body.issueDate, r.body.expiryDate;
      credentialId, credentialUrl := r.body.credentialId, r.body.credentialUrl;
      createdAt, updatedAt := r.createdAt, r.updatedAt;
    }

    static method Build(r: CertificationRecord) returns (res: Result<Certification, DomainError>)
      ensures res.Success? <==> Construct(r).Success?
      ensures res.Success? ==> fresh(res.value) && res.value.Record() == Construct(r).value && res.value.Valid()
      ensures res.Failure? ==> res.error == Construct(r).error
    {
      var c := Construct(r);
      if c.Failure? {
        return Failure(c.error);
      }
      var e := new Certification.Init(c.value);
      return Success(e);
    }

    static method Create(profileId: Id, title: string, issuer: string, issueDate: Timestamp, orderIndex: int,
                         expiryDate: Option<Timestamp>, credentialId: Option<string>, credentialUrl: Option<string>,
                         newId: Id, now: Timestamp) returns (res: Result<Certification, DomainError>)
      ensures var r := NewRecord(profileId, title, issuer, issueDate, orderIndex, expiryDate, credentialId, credentialUrl, newId, now);
              (res.Success? <==> Construct(r).Success?)
              && (res.Success? ==> fresh(res.value) && res.value.Record() == Construct(r).value && res.value.Valid())
              && (res.Failure? ==> res.error == Construct(r).error)
    {
      res := Build(NewRecord(profileId, title, issuer, issueDate, orderIndex, expiryDate, credentialId, credentialUrl, newId, now));
    }

    method UpdateInfo(newTitle: Option<string>, newIssuer: Option<string>, newIssue: Option<Timestamp>,
                      newExpiry: Option<Timestamp>, newCredentialId: Option<string>, newCredentialUrl: Option<string>,
                      now: Timestamp) returns (o: Outcome)
      modifies this
      ensures Record() == InfoUpdated(old(Record()), newTitle, newIssuer, newIssue, newExpiry, newCredentialId, newCredentialUrl, now).state
      ensures o == InfoUpdated(old(Record()), newTitle, newIssuer, newIssue, newExpiry, newCredentialId, newCredentialUrl, now).outcome
    {
      o := ApplyInfo(newTitle, newIssuer, newIssue, newExpiry, newCredentialId, newCredentialUrl);
      if o.Fail? { return; }
      updatedAt := now;
    }

    /** The assignments and checks of `update_info`, before `_mark_as_updated`. */
    method ApplyInfo(newTitle: Option<string>, newIssuer: Option<string>, newIssue: Option<Timestamp>,
                     newExpiry: Option<Timestamp>, newCredentialId: Option<string>, newCredentialUrl: Option<string>)
      returns (o: Outcome)
      modifies this
      ensures Record() == old(Record()).(body := InfoApplied(old(Record()).body, newTitle, newIssuer, newIssue, newExpiry, newCredentialId, newCredentialUrl).state)
      ensures o == InfoApplied(old(Record()).body, newTitle, newIssuer, newIssue, newExpiry, newCredentialId, newCredentialUrl).outcome
    {
      if newTitle.Some? {
        title := newTitle.value;
        o := CheckTitle(title);
        if o.Fail? { return; }
      }
      o := ApplyIssuer(newIssuer, newIssue, newExpiry, newCredentialId, newCredentialUrl);
    }

    method ApplyIssuer(newIssuer: Option<string>, newIssue: Option<Timestamp>, newExpiry: Option<Timestamp>,
                       newCredentialId: Option<string>, newCredentialUrl: Option<string>) returns (o: Outcome)
      modifies this
      ensures Record() == old(Record()).(body := IssuerApplied(old(Record()).body, newIssuer, newIssue, newExpiry, newCredentialId, newCredentialUrl).state)
      ensures o == IssuerApplied(old(Record()).body, newIssuer, newIssue, newExpiry, newCredentialId, newCredentialUrl).outcome
    {
      if newIssuer.Some? {
        issuer := newIssuer.value;
        o := CheckIssuer(issuer);
        if o.Fail? { return; }
      }
      o := AssignDates(newIssue, newExpiry, newCredentialId, newCredentialUrl);
    }

    method AssignDates(newIssue: Option<Timestamp>, newExpiry: Option<Timestamp>,
                       newCredentialId: Option<string>, newCredentialUrl: Option<string>) returns (o: Outcome)
      modifies this
      ensures Record() == old(Record()).(body := DatesAssigned(old(Record()).body, newIssue, newExpiry, newCredentialId, newCredentialUrl).state)
      ensures o == DatesAssigned(old(Record()).body, newIssue, newExpiry, newCredentialId, newCredentialUrl).outcome
    {
      if newIssue.Some? {
        issueDate := newIssue.value;
      }
      if newExpiry.Some? {
        expiryDate := newExpiry;
      }
      o := ApplyCredentialId(newCredentialId, newCredentialUrl);
    }

    method ApplyCredentialId(newCredentialId: Option<string>, newCredentialUrl: Option<string>) returns (o: Outcome)
      modifies this
      ensures Record() == old(Record()).(body := CredentialIdApplied(old(Record()).body, newCredentialId, newCredentialUrl).state)
      ensures o == CredentialIdApplied(old(Record()).body, newCredentialId, newCredentialUrl).outcome
    {
      if newCredentialId.Some? {
        o := CheckCredentialId(newCredentialId);
        credentialId := BlankToNone(newCredentialId);
        if o.Fail? { return; }
      }
      o := ApplyCredentialUrl(newCredentialUrl);
    }

    method ApplyCredentialUrl(newCredentialUrl: Option<string>) returns (o: Outcome)
      modifies this
      ensures Record() == old(Record()).(body := CredentialUrlApplied(old(Record()).body, newCredentialUrl).state)
      ensures o == CredentialUrlApplied(old(Record()).body, newCredentialUrl).outcome
    {
      if newCredentialUrl.Some? {
        o := CheckCoercedUrl(newCredentialUrl);
        credentialUrl := BlankToNone(newCredentialUrl);
        if o.Fail? { return; }
      }
      o := CheckDateRange(issueDate, expiryDate);
    }

    method UpdateOrder(newIndex: int, now: Timestamp) returns (o: Outcome)
      modifies this
      ensures Record() == Reindexed(old(Record()), newIndex, now).state
      ensures o == Reindexed(old(Record()), newIndex, now).outcome
    {
      orderIndex := newIndex;
      o := CheckOrderIndex(orderIndex);
      if o.Fail? { return; }
      updatedAt := now;
    }

    /** `is_expired`, reading the clock as `now`. */
    method IsExpired(now: Timestamp) returns (b: bool)
      ensures b <==> ExpiredAt(Record().body, now)
    {
      if expiryDate.None? {
        return false;
      }
      b := now > expiryDate.value;
    }

    /** `has_no_expiry`. */
    method HasNoExpiry() returns (b: bool)
      ensures b <==> expiryDate.None?
      ensures b ==> forall t :: !ExpiredAt(Record().body, t)
    {
      b := expiryDate.None?;
    }
  }
}
