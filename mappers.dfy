/**
 * The persistence mappers of app/infrastructure/mappers/ and the list
 * helpers of app/shared/interfaces/mapper.py. A MongoDB document is a map
 * from key to value; `to_persistence` writes the required keys and each
 * optional key only when its value is not None, and `to_domain` reads the
 * required keys with `doc[key]` (a KeyError when missing), the optional
 * ones with `doc.get(key)`, and then runs the entity's own validation.
 */
module Mappers {
  import opened Common
  import Projects
  import Educations
  import Certifications
  import AdditionalTrainings
  import Profiles
  import ContactInfos
  import SocialNetworks
  import Tools
  import ContactMessages

  /** A stored BSON value, as far as the mappers use them: strings, numbers (an integer, or a datetime held as its timestamp), string arrays, null. */
  datatype Value = VStr(s: string) | VNum(n: int) | VList(items: seq<string>) | VNull

  /**
   * The document keys the mappers write and read, each named after its
   * stored spelling: `IdKey` is "_id", `ProfileId` is "profile_id",
   * `StartDate` is "start_date", and so on.
   */
  datatype Key =
    | IdKey | ProfileId | OrderIndex | CreatedAt | UpdatedAt
    | Title | Description | StartDate | EndDate | LiveUrl | RepoUrl | Technologies
    | Institution | Degree | Field
    | Issuer | IssueDate | ExpiryDate | CredentialId | CredentialUrl
    | Provider | CompletionDate | Duration | CertificateUrl
    | Name | Headline | Bio | Location | AvatarUrl
    | Email | Phone | Linkedin | Github | Website
    | Platform | Url | Username
    | Category | IconUrl
    | Message | Status | ReadAt | RepliedAt

  type Doc = map<Key, Value>

  /** Why `to_domain` raised: a KeyError, a value of the wrong kind, or the entity's validation. */
  datatype MapError = MissingKey(key: Key) | WrongType(key: Key) | Invalid(error: DomainError)

  // ---------------------------------------------------------------------
  // Reading and writing one key

  /** `doc[key]` for a string. */
  function ReqStr(d: Doc, k: Key): (res: Result<string, MapError>)
    ensures k !in d ==> res == Failure(MissingKey(k))
    ensures res.Success? <==> k in d && d[k].VStr?
    ensures res.Success? ==> d[k] == VStr(res.value)
  {
    if k !in d then Failure(MissingKey(k))
    else if d[k].VStr? then Success(d[k].s)
    else Failure(WrongType(k))
  }

  /** `doc[key]` for a datetime or an integer. */
  function ReqNum(d: Doc, k: Key): (res: Result<int, MapError>)
    ensures k !in d ==> res == Failure(MissingKey(k))
    ensures res.Success? <==> k in d && d[k].VNum?
    ensures res.Success? ==> d[k] == VNum(res.value)
  {
    if k !in d then Failure(MissingKey(k))
    else if d[k].VNum? then Success(d[k].n)
    else Failure(WrongType(k))
  }

  /** `doc.get(key)` for a string: None when the key is missing or null. */
  function OptStr(d: Doc, k: Key): (res: Result<Option<string>, MapError>)
    ensures k !in d ==> res == Success(None)
    ensures res.Success? <==> k !in d || d[k].VNull? || d[k].VStr?
    ensures res.Success? && res.value.Some? ==> k in d && d[k] == VStr(res.value.value)
  {
    if k !in d || d[k].VNull? then Success(None)
    else if d[k].VStr? then Success(Some(d[k].s))
    else Failure(WrongType(k))
  }

  /** `doc.get(key)` for a datetime: None when the key is missing or null. */
  function OptNum(d: Doc, k: Key): (res: Result<Option<int>, MapError>)
    ensures k !in d ==> res == Success(None)
    ensures res.Success? <==> k !in d || d[k].VNull? || d[k].VNum?
    ensures res.Success? && res.value.Some? ==> k in d && d[k] == VNum(res.value.value)
  {
    if k !in d || d[k].VNull? then Success(None)
    else if d[k].VNum? then Success(Some(d[k].n))
    else Failure(WrongType(k))
  }

  /** `doc.get(key, default)` for a string. */
  function StrOr(d: Doc, k: Key, default: string): (res: Result<string, MapError>)
    ensures k !in d ==> res == Success(default)
    ensures res.Success? <==> k !in d || d[k].VStr?
    ensures res.Success? && k in d ==> d[k] == VStr(res.value)
  {
    if k !in d then Success(default)
    else if d[k].VStr? then Success(d[k].s)
    else Failure(WrongType(k))
  }

  /** `doc.get(key, [])` for a string array. */
  function ListOrEmpty(d: Doc, k: Key): (res: Result<seq<string>, MapError>)
    ensures k !in d ==> res == Success([])
    ensures res.Success? <==> k !in d || d[k].VList?
  {
    if k !in d then Success([])
    else if d[k].VList? then Success(d[k].items)
    else Failure(WrongType(k))
  }

  /** `if value is not None: doc[key] = value`. */
  function PutStr(d: Doc, k: Key, v: Option<string>): (e: Doc)
    ensures e == if v.Some? then d[k := VStr(v.value)] else d
  {
    if v.Some? then d[k := VStr(v.value)] else d
  }

  /** The same for a datetime or an integer. */
  function PutNum(d: Doc, k: Key, v: Option<int>): (e: Doc)
    ensures e == if v.Some? then d[k := VNum(v.value)] else d
  {
    if v.Some? then d[k := VNum(v.value)] else d
  }

  /** The entity's validation, with its error reported as raised by `to_domain`. */
  function Checked<R>(c: Result<R, DomainError>): (res: Result<R, MapError>)
    ensures res.Success? <==> c.Success?
    ensures res.Success? ==> res.value == c.value
    ensures res.Failure? ==> res.error == Invalid(c.error)
  {
    if c.Success? then Success(c.value) else Failure(Invalid(c.error))
  }

  // ---------------------------------------------------------------------
  // ProjectMapper

  /** `to_persistence`. */
  function ProjectToDoc(r: Projects.ProjectRecord): Doc {
    var base := map[IdKey := VStr(r.id), ProfileId := VStr(r.profileId), Title := VStr(r.body.title),
                    Description := VStr(r.body.description), StartDate := VNum(r.body.startDate),
                    OrderIndex := VNum(r.orderIndex), Technologies := VList(r.body.technologies),
                    CreatedAt := VNum(r.createdAt), UpdatedAt := VNum(r.updatedAt)];
    PutStr(PutStr(PutNum(base, EndDate, r.body.endDate), LiveUrl, r.body.liveUrl), RepoUrl, r.body.repoUrl)
  }

  /** The keyword arguments `to_domain` reads, in the order it reads them; `.get` gives None, or [] for technologies, for a missing key. */
  function ProjectRead(d: Doc): (res: Result<Projects.ProjectRecord, MapError>)
    ensures res.Success? && EndDate !in d ==> res.value.body.endDate.None?
    ensures res.Success? && LiveUrl !in d ==> res.value.body.liveUrl.None?
    ensures res.Success? && RepoUrl !in d ==> res.value.body.repoUrl.None?
    ensures res.Success? && Technologies !in d ==> res.value.body.technologies == []
  {
    var id :- ReqStr(d, IdKey);
    var profileId :- ReqStr(d, ProfileId);
    var title :- ReqStr(d, Title);
    var description :- ReqStr(d, Description);
    var startDate :- ReqNum(d, StartDate);
    var orderIndex :- ReqNum(d, OrderIndex);
    var endDate :- OptNum(d, EndDate);
    var liveUrl :- OptStr(d, LiveUrl);
    var repoUrl :- OptStr(d, RepoUrl);
    var technologies :- ListOrEmpty(d, Technologies);
    var createdAt :- ReqNum(d, CreatedAt);
    var updatedAt :- ReqNum(d, UpdatedAt);
    Success(Entry(id, profileId, orderIndex,
                  Projects.ProjectFields(title, description, startDate, endDate, liveUrl, repoUrl, technologies),
                  createdAt, updatedAt))
  }

  /** `to_domain`: the reads, then the validation of `Project.__post_init__`. */
  function ProjectFromDoc(d: Doc): (res: Result<Projects.ProjectRecord, MapError>)
    ensures res.Success? ==> Projects.ValidProject(res.value) && IdKey in d && d[IdKey] == VStr(res.value.id)
  {
    var r :- ProjectRead(d);
    Checked(Projects.Construct(r))
  }

  /** `to_persistence` writes each optional key exactly when its value is not None. */
  lemma ProjectDocKeys(r: Projects.ProjectRecord)
    ensures var d := ProjectToDoc(r);
            (EndDate in d <==> r.body.endDate.Some?) && (LiveUrl in d <==> r.body.liveUrl.Some?)
            && (RepoUrl in d <==> r.body.repoUrl.Some?)
  {
  }

  /** What `to_persistence` writes under the required text keys. */
  lemma ProjectDocText(r: Projects.ProjectRecord)
    ensures var d := ProjectToDoc(r);
            IdKey in d && ProfileId in d && Title in d && Description in d && Technologies in d
            && d[IdKey] == VStr(r.id) && d[ProfileId] == VStr(r.profileId) && d[Title] == VStr(r.body.title)
            && d[Description] == VStr(r.body.description) && d[Technologies] == VList(r.body.technologies)
  {
  }

  /** What `to_persistence` writes under the required date and index keys. */
  lemma ProjectDocNumbers(r: Projects.ProjectRecord)
    ensures var d := ProjectToDoc(r);
            StartDate in d && OrderIndex in d && CreatedAt in d && UpdatedAt in d
            && d[StartDate] == VNum(r.body.startDate) && d[OrderIndex] == VNum(r.orderIndex)
            && d[CreatedAt] == VNum(r.createdAt) && d[UpdatedAt] == VNum(r.updatedAt)
  {
  }

  /** What `to_persistence` writes under each optional key it writes. */
  lemma ProjectDocOptional(r: Projects.ProjectRecord)
    ensures var d := ProjectToDoc(r);
            (r.body.endDate.Some? ==> EndDate in d && d[EndDate] == VNum(r.body.endDate.value))
            && (r.body.liveUrl.Some? ==> LiveUrl in d && d[LiveUrl] == VStr(r.body.liveUrl.value))
            && (r.body.repoUrl.Some? ==> RepoUrl in d && d[RepoUrl] == VStr(r.body.repoUrl.value))
  {
  }

  /** Every project is read back as it was written. */
  lemma ProjectReadsBack(r: Projects.ProjectRecord)
    ensures ProjectRead(ProjectToDoc(r)) == Success(r)
  {
    ProjectDocKeys(r);
    ProjectDocText(r);
    ProjectDocNumbers(r);
    ProjectDocOptional(r);
  }

  /** A valid project survives being stored and read back unchanged. */
  lemma ProjectRoundTrip(r: Projects.ProjectRecord)
    requires Projects.ValidProject(r)
    ensures ProjectFromDoc(ProjectToDoc(r)) == Success(r)
  {
    ProjectReadsBack(r);
  }

  /** A stored project without a technologies key reads back with an empty list. */
  lemma ProjectTechnologiesDefault(d: Doc)
    requires Technologies !in d
    requires ProjectFromDoc(d).Success?
    ensures ProjectFromDoc(d).value.body.technologies == []
  {
  }

  // ---------------------------------------------------------------------
  // EducationMapper

  /** `to_persistence`. */
  function EducationToDoc(r: Educations.EducationRecord): Doc {
    PutNum(PutStr(map[IdKey := VStr(r.id), ProfileId := VStr(r.profileId), Institution := VStr(r.body.institution), Degree := VStr(r.body.degree), Field := VStr(r.body.field), StartDate := VNum(r.body.startDate), OrderIndex := VNum(r.orderIndex), CreatedAt := VNum(r.createdAt), UpdatedAt := VNum(r.updatedAt)], Description, r.body.description), EndDate, r.body.endDate)
  }

  /** The keyword arguments `to_domain` reads, in the order it reads them; `.get` gives None for a missing optional key. */
  function EducationRead(d: Doc): (res: Result<Educations.EducationRecord, MapError>)
    ensures res.Success? && Description !in d ==> res.value.body.description.None?
    ensures res.Success? && EndDate !in d ==> res.value.body.endDate.None?
  {
    var id :- ReqStr(d, IdKey);
    var profileId :- ReqStr(d, ProfileId);
    var institution :- ReqStr(d, Institution);
    var degree :- ReqStr(d, Degree);
    var field :- ReqStr(d, Field);
    var startDate :- ReqNum(d, StartDate);
    var orderIndex :- ReqNum(d, OrderIndex);
    var description :- OptStr(d, Description);
    var endDate :- OptNum(d, EndDate);
    var createdAt :- ReqNum(d, CreatedAt);
    var updatedAt :- ReqNum(d, UpdatedAt);
    Success(Entry(id, profileId, orderIndex, Educations.EducationFields(institution, degree, field, startDate, description, endDate), createdAt, updatedAt))
  }

  /** `to_domain`: the reads, then the validation of `Education.__post_init__`. */
  function EducationFromDoc(d: Doc): (res: Result<Educations.EducationRecord, MapError>)
    ensures res.Success? ==> Educations.ValidEducation(res.value) && IdKey in d && d[IdKey] == VStr(res.value.id)
  {
    var r :- EducationRead(d);
    Checked(Educations.Construct(r))
  }

  /** `to_persistence` writes each optional key exactly when its value is not None. */
  lemma EducationDocKeys(r: Educations.EducationRecord)
    ensures var d := EducationToDoc(r);
            (Description in d <==> r.body.description.Some?) && (EndDate in d <==> r.body.endDate.Some?)
  {
  }

  /** What `to_persistence` writes under the required text keys. */
  lemma EducationDocText(r: Educations.EducationRecord)
    ensures var d := EducationToDoc(r);
            IdKey in d && ProfileId in d && Institution in d && Degree in d && Field in d
            && d[IdKey] == VStr(r.id) && d[ProfileId] == VStr(r.profileId) && d[Institution] == VStr(r.body.institution) && d[Degree] == VStr(r.body.degree) && d[Field] == VStr(r.body.field)
  {
  }

  /** What `to_persistence` writes under the required date and index keys. */
  lemma EducationDocNumbers(r: Educations.EducationRecord)
    ensures var d := EducationToDoc(r);
            StartDate in d && OrderIndex in d && CreatedAt in d && UpdatedAt in d
            && d[StartDate] == VNum(r.body.startDate) && d[OrderIndex] == VNum(r.orderIndex) && d[CreatedAt] == VNum(r.createdAt) && d[UpdatedAt] == VNum(r.updatedAt)
  {
  }

  /** What `to_persistence` writes under each optional key it writes. */
  lemma EducationDocOptional(r: Educations.EducationRecord)
    ensures var d := EducationToDoc(r);
            (r.body.description.Some? ==> Description in d && d[Description] == VStr(r.body.description.value)) && (r.body.endDate.Some? ==> EndDate in d && d[EndDate] == VNum(r.body.endDate.value))
  {
  }

  /** Every Education is read back as it was written. */
  lemma EducationReadsBack(r: Educations.EducationRecord)
    ensures EducationRead(EducationToDoc(r)) == Success(r)
  {
    EducationDocKeys(r);
    EducationDocText(r);
    EducationDocNumbers(r);
    EducationDocOptional(r);
  }

  /** A valid Education survives being stored and read back unchanged. */
  lemma EducationRoundTrip(r: Educations.EducationRecord)
    requires Educations.ValidEducation(r)
    ensures EducationFromDoc(EducationToDoc(r)) == Success(r)
  {
    EducationReadsBack(r);
  }

  // ---------------------------------------------------------------------
  // CertificationMapper

  /** `to_persistence`. */
  function CertificationToDoc(r: Certifications.CertificationRecord): Doc {
    PutStr(PutStr(PutNum(map[IdKey := VStr(r.id), ProfileId := VStr(r.profileId), Title := VStr(r.body.title), Issuer := VStr(r.body.issuer), IssueDate := VNum(r.body.issueDate), OrderIndex := VNum(r.orderIndex), CreatedAt := VNum(r.createdAt), UpdatedAt := VNum(r.updatedAt)], ExpiryDate, r.body.expiryDate), CredentialId, r.body.credentialId), CredentialUrl, r.body.credentialUrl)
  }

  /** The keyword arguments `to_domain` reads, in the order it reads them; `.get` gives None for a missing optional key. */
  function CertificationRead(d: Doc): (res: Result<Certifications.CertificationRecord, MapError>)
    ensures res.Success? && ExpiryDate !in d ==> res.value.body.expiryDate.None?
    ensures res.Success? && CredentialId !in d ==> res.value.body.credentialId.None?
    ensures res.Success? && CredentialUrl !in d ==> res.value.body.credentialUrl.None?
  {
    var id :- ReqStr(d, IdKey);
    var profileId :- ReqStr(d, ProfileId);
    var title :- ReqStr(d, Title);
    var issuer :- ReqStr(d, Issuer);
    var issueDate :- ReqNum(d, IssueDate);
    var orderIndex :- ReqNum(d, OrderIndex);
    var expiryDate :- OptNum(d, ExpiryDate);
    var credentialId :- OptStr(d, CredentialId);
    var credentialUrl :- OptStr(d, CredentialUrl);
    var createdAt :- ReqNum(d, CreatedAt);
    var updatedAt :- ReqNum(d, UpdatedAt);
    Success(Entry(id, profileId, orderIndex, Certifications.CertificationFields(title, issuer, issueDate, expiryDate, credentialId, credentialUrl), createdAt, updatedAt))
  }

  /** `to_domain`: the reads, then the validation of `Certification.__post_init__`. */
  function CertificationFromDoc(d: Doc): (res: Result<Certifications.CertificationRecord, MapError>)
    ensures res.Success? ==> Certifications.ValidCertification(res.value) && IdKey in d && d[IdKey] == VStr(res.value.id)
  {
    var r :- CertificationRead(d);
    Checked(Certifications.Construct(r))
  }

  /** `to_persistence` writes each optional key exactly when its value is not None. */
  lemma CertificationDocKeys(r: Certifications.CertificationRecord)
    ensures var d := CertificationToDoc(r);
            (ExpiryDate in d <==> r.body.expiryDate.Some?) && (CredentialId in d <==> r.body.credentialId.Some?) && (CredentialUrl in d <==> r.body.credentialUrl.Some?)
  {
  }

  /** What `to_persistence` writes under the required text keys. */
  lemma CertificationDocText(r: Certifications.CertificationRecord)
    ensures var d := CertificationToDoc(r);
            IdKey in d && ProfileId in d && Title in d && Issuer in d
            && d[IdKey] == VStr(r.id) && d[ProfileId] == VStr(r.profileId) && d[Title] == VStr(r.body.title) && d[Issuer] == VStr(r.body.issuer)
  {
  }

  /** What `to_persistence` writes under the required date and index keys. */
  lemma CertificationDocNumbers(r: Certifications.CertificationRecord)
    ensures var d := CertificationToDoc(r);
            IssueDate in d && OrderIndex in d && CreatedAt in d && UpdatedAt in d
            && d[IssueDate] == VNum(r.body.issueDate) && d[OrderIndex] == VNum(r.orderIndex) && d[CreatedAt] == VNum(r.createdAt) && d[UpdatedAt] == VNum(r.updatedAt)
  {
  }

  /** What `to_persistence` writes under each optional key it writes. */
  lemma CertificationDocOptional(r: Certifications.CertificationRecord)
    ensures var d := CertificationToDoc(r);
            (r.body.expiryDate.Some? ==> ExpiryDate in d && d[ExpiryDate] == VNum(r.body.expiryDate.value)) && (r.body.credentialId.Some? ==> CredentialId in d && d[CredentialId] == VStr(r.body.credentialId.value)) && (r.body.credentialUrl.Some? ==> CredentialUrl in d && d[CredentialUrl] == VStr(r.body.credentialUrl.value))
  {
  }

  /** Every Certification is read back as it was written. */
  lemma CertificationReadsBack(r: Certifications.CertificationRecord)
    ensures CertificationRead(CertificationToDoc(r)) == Success(r)
  {
    CertificationDocKeys(r);
    CertificationDocText(r);
    CertificationDocNumbers(r);
    CertificationDocOptional(r);
  }

  /** A valid Certification survives being stored and read back unchanged. */
  lemma CertificationRoundTrip(r: Certifications.CertificationRecord)
    requires Certifications.ValidCertification(r)
    ensures CertificationFromDoc(CertificationToDoc(r)) == Success(r)
  {
    CertificationReadsBack(r);
  }

  // ---------------------------------------------------------------------
  // AdditionalTrainingMapper

  /** `to_persistence`. */
  function TrainingToDoc(r: AdditionalTrainings.TrainingRecord): Doc {
    PutStr(PutStr(PutStr(map[IdKey := VStr(r.id), ProfileId := VStr(r.profileId), Title := VStr(r.body.title), Provider := VStr(r.body.provider), CompletionDate := VNum(r.body.completionDate), OrderIndex := VNum(r.orderIndex), CreatedAt := VNum(r.createdAt), UpdatedAt := VNum(r.updatedAt)], Duration, r.body.duration), CertificateUrl, r.body.certificateUrl), Description, r.body.description)
  }

  /** The keyword arguments `to_domain` reads, in the order it reads them; `.get` gives None for a missing optional key. */
  function TrainingRead(d: Doc): (res: Result<AdditionalTrainings.TrainingRecord, MapError>)
    ensures res.Success? && Duration !in d ==> res.value.body.duration.None?
    ensures res.Success? && CertificateUrl !in d ==> res.value.body.certificateUrl.None?
    ensures res.Success? && Description !in d ==> res.value.body.description.None?
  {
    var id :- ReqStr(d, IdKey);
    var profileId :- ReqStr(d, ProfileId);
    var title :- ReqStr(d, Title);
    var provider :- ReqStr(d, Provider);
    var completionDate :- ReqNum(d, CompletionDate);
    var orderIndex :- ReqNum(d, OrderIndex);
    var duration :- OptStr(d, Duration);
    var certificateUrl :- OptStr(d, CertificateUrl);
    var description :- OptStr(d, Description);
    var createdAt :- ReqNum(d, CreatedAt);
    var updatedAt :- ReqNum(d, UpdatedAt);
    Success(Entry(id, profileId, orderIndex, AdditionalTrainings.TrainingFields(title, provider, completionDate, duration, certificateUrl, description), createdAt, updatedAt))
  }

  /** `to_domain`: the reads, then the validation of `AdditionalTraining.__post_init__`. */
  function TrainingFromDoc(d: Doc): (res: Result<AdditionalTrainings.TrainingRecord, MapError>)
    ensures res.Success? ==> AdditionalTrainings.ValidTraining(res.value) && IdKey in d && d[IdKey] == VStr(res.value.id)
  {
    var r :- TrainingRead(d);
    Checked(AdditionalTrainings.Construct(r))
  }

  /** `to_persistence` writes each optional key exactly when its value is not None. */
  lemma TrainingDocKeys(r: AdditionalTrainings.TrainingRecord)
    ensures var d := TrainingToDoc(r);
            (Duration in d <==> r.body.duration.Some?) && (CertificateUrl in d <==> r.body.certificateUrl.Some?) && (Description in d <==> r.body.description.Some?)
  {
  }

  /** What `to_persistence` writes under the required text keys. */
  lemma TrainingDocText(r: AdditionalTrainings.TrainingRecord)
    ensures var d := TrainingToDoc(r);
            IdKey in d && ProfileId in d && Title in d && Provider in d
            && d[IdKey] == VStr(r.id) && d[ProfileId] == VStr(r.profileId) && d[Title] == VStr(r.body.title) && d[Provider] == VStr(r.body.provider)
  {
  }

  /** What `to_persistence` writes under the required date and index keys. */
  lemma TrainingDocNumbers(r: AdditionalTrainings.TrainingRecord)
    ensures var d := TrainingToDoc(r);
            CompletionDate in d && OrderIndex in d && CreatedAt in d && UpdatedAt in d
            && d[CompletionDate] == VNum(r.body.completionDate) && d[OrderIndex] == VNum(r.orderIndex) && d[CreatedAt] == VNum(r.createdAt) && d[UpdatedAt] == VNum(r.updatedAt)
  {
  }

  /** What `to_persistence` writes under each optional key it writes. */
  lemma TrainingDocOptional(r: AdditionalTrainings.TrainingRecord)
    ensures var d := TrainingToDoc(r);
            (r.body.duration.Some? ==> Duration in d && d[Duration] == VStr(r.body.duration.value)) && (r.body.certificateUrl.Some? ==> CertificateUrl in d && d[CertificateUrl] == VStr(r.body.certificateUrl.value)) && (r.body.description.Some? ==> Description in d && d[Description] == VStr(r.body.description.value))
  {
  }

  /** Every AdditionalTraining is read back as it was written. */
  lemma TrainingReadsBack(r: AdditionalTrainings.TrainingRecord)
    ensures TrainingRead(TrainingToDoc(r)) == Success(r)
  {
    TrainingDocKeys(r);
    TrainingDocText(r);
    TrainingDocNumbers(r);
    TrainingDocOptional(r);
  }

  /** A valid AdditionalTraining survives being stored and read back unchanged. */
  lemma TrainingRoundTrip(r: AdditionalTrainings.TrainingRecord)
    requires AdditionalTrainings.ValidTraining(r)
    ensures TrainingFromDoc(TrainingToDoc(r)) == Success(r)
  {
    TrainingReadsBack(r);
  }

  // ---------------------------------------------------------------------
  // ProfileMapper

  /** `to_persistence`. */
  function ProfileToDoc(r: Profiles.ProfileRecord): Doc {
    PutStr(PutStr(PutStr(map[IdKey := VStr(r.id), Name := VStr(r.body.name), Headline := VStr(r.body.headline), CreatedAt := VNum(r.createdAt), UpdatedAt := VNum(r.updatedAt)], Bio, r.body.bio), Location, r.body.location), AvatarUrl, r.body.avatarUrl)
  }

  /** The keyword arguments `to_domain` reads, in the order it reads them; `.get` gives None for a missing optional key. */
  function ProfileRead(d: Doc): (res: Result<Profiles.ProfileRecord, MapError>)
    ensures res.Success? && Bio !in d ==> res.value.body.bio.None?
    ensures res.Success? && Location !in d ==> res.value.body.location.None?
    ensures res.Success? && AvatarUrl !in d ==> res.value.body.avatarUrl.None?
  {
    var id :- ReqStr(d, IdKey);
    var name :- ReqStr(d, Name);
    var headline :- ReqStr(d, Headline);
    var bio :- OptStr(d, Bio);
    var location :- OptStr(d, Location);
    var avatarUrl :- OptStr(d, AvatarUrl);
    var createdAt :- ReqNum(d, CreatedAt);
    var updatedAt :- ReqNum(d, UpdatedAt);
    Success(Profiles.ProfileRecord(id, Profiles.ProfileFields(name, headline, bio, location, avatarUrl), createdAt, updatedAt))
  }

  /** `to_domain`: the reads, then the validation of `Profile.__post_init__`. */
  function ProfileFromDoc(d: Doc): (res: Result<Profiles.ProfileRecord, MapError>)
    ensures res.Success? ==> Profiles.ValidProfile(res.value) && IdKey in d && d[IdKey] == VStr(res.value.id)
  {
    var r :- ProfileRead(d);
    Checked(Profiles.Construct(r))
  }

  /** `to_persistence` writes each optional key exactly when its value is not None. */
  lemma ProfileDocKeys(r: Profiles.ProfileRecord)
    ensures var d := ProfileToDoc(r);
            (Bio in d <==> r.body.bio.Some?) && (Location in d <==> r.body.location.Some?) && (AvatarUrl in d <==> r.body.avatarUrl.Some?) && ProfileId !in d && OrderIndex !in d
  {
  }

  /** What `to_persistence` writes under the required text keys. */
  lemma ProfileDocText(r: Profiles.ProfileRecord)
    ensures var d := ProfileToDoc(r);
            IdKey in d && Name in d && Headline in d
            && d[IdKey] == VStr(r.id) && d[Name] == VStr(r.body.name) && d[Headline] == VStr(r.body.headline)
  {
  }

  /** What `to_persistence` writes under the required date and index keys. */
  lemma ProfileDocNumbers(r: Profiles.ProfileRecord)
    ensures var d := ProfileToDoc(r);
            CreatedAt in d && UpdatedAt in d
            && d[CreatedAt] == VNum(r.createdAt) && d[UpdatedAt] == VNum(r.updatedAt)
  {
  }

  /** What `to_persistence` writes under each optional key it writes. */
  lemma ProfileDocOptional(r: Profiles.ProfileRecord)
    ensures var d := ProfileToDoc(r);
            (r.body.bio.Some? ==> Bio in d && d[Bio] == VStr(r.body.bio.value)) && (r.body.location.Some? ==> Location in d && d[Location] == VStr(r.body.location.value)) && (r.body.avatarUrl.Some? ==> AvatarUrl in d && d[AvatarUrl] == VStr(r.body.avatarUrl.value))
  {
  }

  /** Every Profile is read back as it was written. */
  lemma ProfileReadsBack(r: Profiles.ProfileRecord)
    ensures ProfileRead(ProfileToDoc(r)) == Success(r)
  {
    ProfileDocKeys(r);
    ProfileDocText(r);
    ProfileDocNumbers(r);
    ProfileDocOptional(r);
  }

  /** A valid Profile survives being stored and read back unchanged. */
  lemma ProfileRoundTrip(r: Profiles.ProfileRecord)
    requires Profiles.ValidProfile(r)
    ensures ProfileFromDoc(ProfileToDoc(r)) == Success(r)
  {
    ProfileReadsBack(r);
  }

  // ---------------------------------------------------------------------
  // ContactInformationMapper

  /** `to_persistence`. */
  function ContactToDoc(r: ContactInfos.ContactRecord): Doc {
    PutStr(PutStr(PutStr(PutStr(map[IdKey := VStr(r.id), ProfileId := VStr(r.profileId), Email := VStr(r.body.email), CreatedAt := VNum(r.createdAt), UpdatedAt := VNum(r.updatedAt)], Phone, r.body.phone), Linkedin, r.body.linkedin), Github, r.body.github), Website, r.body.website)
  }

  /** The keyword arguments `to_domain` reads, in the order it reads them; `.get` gives None for a missing optional key. */
  function ContactRead(d: Doc): (res: Result<ContactInfos.ContactRecord, MapError>)
    ensures res.Success? && Phone !in d ==> res.value.body.phone.None?
    ensures res.Success? && Linkedin !in d ==> res.value.body.linkedin.None?
    ensures res.Success? && Github !in d ==> res.value.body.github.None?
    ensures res.Success? && Website !in d ==> res.value.body.website.None?
  {
    var id :- ReqStr(d, IdKey);
    var profileId :- ReqStr(d, ProfileId);
    var email :- ReqStr(d, Email);
    var phone :- OptStr(d, Phone);
    var linkedin :- OptStr(d, Linkedin);
    var github :- OptStr(d, Github);
    var website :- OptStr(d, Website);
    var createdAt :- ReqNum(d, CreatedAt);
    var updatedAt :- ReqNum(d, UpdatedAt);
    Success(ContactInfos.ContactRecord(id, profileId, ContactInfos.ContactFields(email, phone, linkedin, github, website), createdAt, updatedAt))
  }

  /** `to_domain`: the reads, then the validation of `ContactInformation.__post_init__`. */
  function ContactFromDoc(d: Doc): (res: Result<ContactInfos.ContactRecord, MapError>)
    ensures res.Success? ==> ContactInfos.ValidContact(res.value) && IdKey in d && d[IdKey] == VStr(res.value.id)
  {
    var r :- ContactRead(d);
    Checked(ContactInfos.Construct(r))
  }

  /** `to_persistence` writes each optional key exactly when its value is not None. */
  lemma ContactDocKeys(r: ContactInfos.ContactRecord)
    ensures var d := ContactToDoc(r);
            (Phone in d <==> r.body.phone.Some?) && (Linkedin in d <==> r.body.linkedin.Some?) && (Github in d <==> r.body.github.Some?) && (Website in d <==> r.body.website.Some?) && OrderIndex !in d
  {
  }

  /** What `to_persistence` writes under the required text keys. */
  lemma ContactDocText(r: ContactInfos.ContactRecord)
    ensures var d := ContactToDoc(r);
            IdKey in d && ProfileId in d && Email in d
            && d[IdKey] == VStr(r.id) && d[ProfileId] == VStr(r.profileId) && d[Email] == VStr(r.body.email)
  {
  }

  /** What `to_persistence` writes under the required date and index keys. */
  lemma ContactDocNumbers(r: ContactInfos.ContactRecord)
    ensures var d := ContactToDoc(r);
            CreatedAt in d && UpdatedAt in d
            && d[CreatedAt] == VNum(r.createdAt) && d[UpdatedAt] == VNum(r.updatedAt)
  {
  }

  /** What `to_persistence` writes under each optional key it writes. */
  lemma ContactDocOptional(r: ContactInfos.ContactRecord)
    ensures var d := ContactToDoc(r);
            (r.body.phone.Some? ==> Phone in d && d[Phone] == VStr(r.body.phone.value)) && (r.body.linkedin.Some? ==> Linkedin in d && d[Linkedin] == VStr(r.body.linkedin.value)) && (r.body.github.Some? ==> Github in d && d[Github] == VStr(r.body.github.value)) && (r.body.website.Some? ==> Website in d && d[Website] == VStr(r.body.website.value))
  {
  }

  /** Every ContactInformation is read back as it was written. */
  lemma ContactReadsBack(r: ContactInfos.ContactRecord)
    ensures ContactRead(ContactToDoc(r)) == Success(r)
  {
    ContactDocKeys(r);
    ContactDocText(r);
    ContactDocNumbers(r);
    ContactDocOptional(r);
  }

  /** A valid ContactInformation survives being stored and read back unchanged. */
  lemma ContactRoundTrip(r: ContactInfos.ContactRecord)
    requires ContactInfos.ValidContact(r)
    ensures ContactFromDoc(ContactToDoc(r)) == Success(r)
  {
    ContactReadsBack(r);
  }

  // ---------------------------------------------------------------------
  // SocialNetworkMapper

  /** `to_persistence`. */
  function NetworkToDoc(r: SocialNetworks.NetworkRecord): Doc {
    PutStr(map[IdKey := VStr(r.id), ProfileId := VStr(r.profileId), Platform := VStr(r.body.platform), Url := VStr(r.body.url), OrderIndex := VNum(r.orderIndex), CreatedAt := VNum(r.createdAt), UpdatedAt := VNum(r.updatedAt)], Username, r.body.username)
  }

  /** The keyword arguments `to_domain` reads, in the order it reads them; `.get` gives None for a missing optional key. */
  function NetworkRead(d: Doc): (res: Result<SocialNetworks.NetworkRecord, MapError>)
    ensures res.Success? && Username !in d ==> res.value.body.username.None?
  {
    var id :- ReqStr(d, IdKey);
    var profileId :- ReqStr(d, ProfileId);
    var platform :- ReqStr(d, Platform);
    var url :- ReqStr(d, Url);
    var orderIndex :- ReqNum(d, OrderIndex);
    var username :- OptStr(d, Username);
    var createdAt :- ReqNum(d, CreatedAt);
    var updatedAt :- ReqNum(d, UpdatedAt);
    Success(Entry(id, profileId, orderIndex, SocialNetworks.NetworkFields(platform, url, username), createdAt, updatedAt))
  }

  /** `to_domain`: the reads, then the validation of `SocialNetwork.__post_init__`. */
  function NetworkFromDoc(d: Doc): (res: Result<SocialNetworks.NetworkRecord, MapError>)
    ensures res.Success? ==> SocialNetworks.ValidNetwork(res.value) && IdKey in d && d[IdKey] == VStr(res.value.id)
  {
    var r :- NetworkRead(d);
    Checked(SocialNetworks.Construct(r))
  }

  /** `to_persistence` writes each optional key exactly when its value is not None. */
  lemma NetworkDocKeys(r: SocialNetworks.NetworkRecord)
    ensures var d := NetworkToDoc(r);
            (Username in d <==> r.body.username.Some?)
  {
  }

  /** What `to_persistence` writes under the required text keys. */
  lemma NetworkDocText(r: SocialNetworks.NetworkRecord)
    ensures var d := NetworkToDoc(r);
            IdKey in d && ProfileId in d && Platform in d && Url in d
            && d[IdKey] == VStr(r.id) && d[ProfileId] == VStr(r.profileId) && d[Platform] == VStr(r.body.platform) && d[Url] == VStr(r.body.url)
  {
  }

  /** What `to_persistence` writes under the required date and index keys. */
  lemma NetworkDocNumbers(r: SocialNetworks.NetworkRecord)
    ensures var d := NetworkToDoc(r);
            OrderIndex in d && CreatedAt in d && UpdatedAt in d
            && d[OrderIndex] == VNum(r.orderIndex) && d[CreatedAt] == VNum(r.createdAt) && d[UpdatedAt] == VNum(r.updatedAt)
  {
  }

  /** What `to_persistence` writes under each optional key it writes. */
  lemma NetworkDocOptional(r: SocialNetworks.NetworkRecord)
    ensures var d := NetworkToDoc(r);
            (r.body.username.Some? ==> Username in d && d[Username] == VStr(r.body.username.value))
  {
  }

  /** Every SocialNetwork is read back as it was written. */
  lemma NetworkReadsBack(r: SocialNetworks.NetworkRecord)
    ensures NetworkRead(NetworkToDoc(r)) == Success(r)
  {
    NetworkDocKeys(r);
    NetworkDocText(r);
    NetworkDocNumbers(r);
    NetworkDocOptional(r);
  }

  /** A valid SocialNetwork survives being stored and read back unchanged. */
  lemma NetworkRoundTrip(r: SocialNetworks.NetworkRecord)
    requires SocialNetworks.ValidNetwork(r)
    ensures NetworkFromDoc(NetworkToDoc(r)) == Success(r)
  {
    NetworkReadsBack(r);
  }

  // ---------------------------------------------------------------------
  // ToolMapper

  /** `to_persistence`. */
  function ToolToDoc(r: Tools.ToolRecord): Doc {
    PutStr(map[IdKey := VStr(r.id), ProfileId := VStr(r.profileId), Name := VStr(r.body.name), Category := VStr(r.body.category), OrderIndex := VNum(r.orderIndex), CreatedAt := VNum(r.createdAt), UpdatedAt := VNum(r.updatedAt)], IconUrl, r.body.iconUrl)
  }

  /** The keyword arguments `to_domain` reads, in the order it reads them; `.get` gives None for a missing optional key. */
  function ToolRead(d: Doc): (res: Result<Tools.ToolRecord, MapError>)
    ensures res.Success? && IconUrl !in d ==> res.value.body.iconUrl.None?
  {
    var id :- ReqStr(d, IdKey);
    var profileId :- ReqStr(d, ProfileId);
    var name :- ReqStr(d, Name);
    var category :- ReqStr(d, Category);
    var orderIndex :- ReqNum(d, OrderIndex);
    var iconUrl :- OptStr(d, IconUrl);
    var createdAt :- ReqNum(d, CreatedAt);
    var updatedAt :- ReqNum(d, UpdatedAt);
    Success(Entry(id, profileId, orderIndex, Tools.ToolFields(name, category, iconUrl), createdAt, updatedAt))
  }

  /** `to_domain`: the reads, then the validation of `Tool.__post_init__`. */
  function ToolFromDoc(d: Doc): (res: Result<Tools.ToolRecord, MapError>)
    ensures res.Success? ==> Tools.ValidTool(res.value) && IdKey in d && d[IdKey] == VStr(res.value.id)
  {
    var r :- ToolRead(d);
    Checked(Tools.Construct(r))
  }

  /** `to_persistence` writes each optional key exactly when its value is not None. */
  lemma ToolDocKeys(r: Tools.ToolRecord)
    ensures var d := ToolToDoc(r);
            (IconUrl in d <==> r.body.iconUrl.Some?)
  {
  }

  /** What `to_persistence` writes under the required text keys. */
  lemma ToolDocText(r: Tools.ToolRecord)
    ensures var d := ToolToDoc(r);
            IdKey in d && ProfileId in d && Name in d && Category in d
            && d[IdKey] == VStr(r.id) && d[ProfileId] == VStr(r.profileId) && d[Name] == VStr(r.body.name) && d[Category] == VStr(r.body.category)
  {
  }

  /** What `to_persistence` writes under the required date and index keys. */
  lemma ToolDocNumbers(r: Tools.ToolRecord)
    ensures var d := ToolToDoc(r);
            OrderIndex in d && CreatedAt in d && UpdatedAt in d
            && d[OrderIndex] == VNum(r.orderIndex) && d[CreatedAt] == VNum(r.createdAt) && d[UpdatedAt] == VNum(r.updatedAt)
  {
  }

  /** What `to_persistence` writes under each optional key it writes. */
  lemma ToolDocOptional(r: Tools.ToolRecord)
    ensures var d := ToolToDoc(r);
            (r.body.iconUrl.Some? ==> IconUrl in d && d[IconUrl] == VStr(r.body.iconUrl.value))
  {
  }

  /** Every Tool is read back as it was written. */
  lemma ToolReadsBack(r: Tools.ToolRecord)
    ensures ToolRead(ToolToDoc(r)) == Success(r)
  {
    ToolDocKeys(r);
    ToolDocText(r);
    ToolDocNumbers(r);
    ToolDocOptional(r);
  }

  /** A valid Tool survives being stored and read back unchanged. */
  lemma ToolRoundTrip(r: Tools.ToolRecord)
    requires Tools.ValidTool(r)
    ensures ToolFromDoc(ToolToDoc(r)) == Success(r)
  {
    ToolReadsBack(r);
  }

  // ---------------------------------------------------------------------
  // ContactMessageMapper

  /** `to_persistence`. */
  function MessageToDoc(r: ContactMessages.MessageRecord): Doc {
    PutNum(PutNum(map[IdKey := VStr(r.id), Name := VStr(r.name), Email := VStr(r.email), Message := VStr(r.message), CreatedAt := VNum(r.createdAt), Status := VStr(r.status)], ReadAt, r.readAt), RepliedAt, r.repliedAt)
  }

  /** The keyword arguments `to_domain` reads, in the order it reads them; `.get` gives None for a missing optional key. */
  function MessageRead(d: Doc): (res: Result<ContactMessages.MessageRecord, MapError>)
    ensures res.Success? && ReadAt !in d ==> res.value.readAt.None?
    ensures res.Success? && RepliedAt !in d ==> res.value.repliedAt.None?
  {
    var id :- ReqStr(d, IdKey);
    var name :- ReqStr(d, Name);
    var email :- ReqStr(d, Email);
    var message :- ReqStr(d, Message);
    var createdAt :- ReqNum(d, CreatedAt);
    var status :- StrOr(d, Status, ContactMessages.Pending);
    var readAt :- OptNum(d, ReadAt);
    var repliedAt :- OptNum(d, RepliedAt);
    Success(ContactMessages.MessageRecord(id, name, email, message, createdAt, status, readAt, repliedAt))
  }

  /** `to_domain`: the reads, then the validation of `ContactMessage.__post_init__`. */
  function MessageFromDoc(d: Doc): (res: Result<ContactMessages.MessageRecord, MapError>)
    ensures res.Success? ==> ContactMessages.ValidMessage(res.value) && IdKey in d && d[IdKey] == VStr(res.value.id)
  {
    var r :- MessageRead(d);
    Checked(ContactMessages.Construct(r))
  }

  /** `to_persistence` writes each optional key exactly when its value is not None. */
  lemma MessageDocKeys(r: ContactMessages.MessageRecord)
    ensures var d := MessageToDoc(r);
            (ReadAt in d <==> r.readAt.Some?) && (RepliedAt in d <==> r.repliedAt.Some?) && ProfileId !in d && UpdatedAt !in d
  {
  }

  /** What `to_persistence` writes under the required text keys. */
  lemma MessageDocText(r: ContactMessages.MessageRecord)
    ensures var d := MessageToDoc(r);
            IdKey in d && Name in d && Email in d && Message in d && Status in d
            && d[IdKey] == VStr(r.id) && d[Name] == VStr(r.name) && d[Email] == VStr(r.email) && d[Message] == VStr(r.message) && d[Status] == VStr(r.status)
  {
  }

  /** What `to_persistence` writes under the required date and index keys. */
  lemma MessageDocNumbers(r: ContactMessages.MessageRecord)
    ensures var d := MessageToDoc(r);
            CreatedAt in d
            && d[CreatedAt] == VNum(r.createdAt)
  {
  }

  /** What `to_persistence` writes under each optional key it writes. */
  lemma MessageDocOptional(r: ContactMessages.MessageRecord)
    ensures var d := MessageToDoc(r);
            (r.readAt.Some? ==> ReadAt in d && d[ReadAt] == VNum(r.readAt.value)) && (r.repliedAt.Some? ==> RepliedAt in d && d[RepliedAt] == VNum(r.repliedAt.value))
  {
  }

  /** Every ContactMessage is read back as it was written. */
  lemma MessageReadsBack(r: ContactMessages.MessageRecord)
    ensures MessageRead(MessageToDoc(r)) == Success(r)
  {
    MessageDocKeys(r);
    MessageDocText(r);
    MessageDocNumbers(r);
    MessageDocOptional(r);
  }

  /** A valid ContactMessage survives being stored and read back unchanged. */
  lemma MessageRoundTrip(r: ContactMessages.MessageRecord)
    requires ContactMessages.ValidMessage(r)
    ensures MessageFromDoc(MessageToDoc(r)) == Success(r)
  {
    MessageReadsBack(r);
  }

  // ---------------------------------------------------------------------
  // What the round trips do not cover

  /**
   * A stored whitespace-only description is read back as None, so storing
   * the entity again drops the description key.
   */
  lemma EducationBlankDescriptionDropped(d: Doc)
    requires EducationFromDoc(d).Success?
    requires Description in d && d[Description].VStr? && IsBlank(d[Description].s)
    ensures EducationFromDoc(d).value.body.description.None?
    ensures Description !in EducationToDoc(EducationFromDoc(d).value)
  {
    EducationDocKeys(EducationFromDoc(d).value);
  }

  /** A stored message without a status reads back as pending. */
  lemma MessageStatusDefault(d: Doc)
    requires Status !in d
    requires MessageFromDoc(d).Success?
    ensures MessageFromDoc(d).value.status == ContactMessages.Pending
  {
  }

  /** A stored status other than the three known ones makes `to_domain` raise. */
  lemma MessageUnknownStatusRejected(d: Doc)
    requires MessageRead(d).Success?
    requires Status in d && d[Status].VStr? && !ContactMessages.KnownStatus(d[Status].s)
    ensures MessageFromDoc(d).Failure?
  {
  }

  /** The phone is stored exactly as the entity holds it, separators and all. */
  lemma ContactPhoneStoredAsHeld(r: ContactInfos.ContactRecord)
    requires r.body.phone.Some?
    ensures var d := ContactToDoc(r);
            Phone in d && d[Phone] == VStr(r.body.phone.value)
  {
    ContactDocOptional(r);
  }

  // ---------------------------------------------------------------------
  // The list helpers of IMapper

  /** `to_persistence_list` and `to_dto_list`: the element conversion applied to each item, in order. */
  function MapEach<A, B>(f: A -> B, xs: seq<A>): (ys: seq<B>)
    ensures |ys| == |xs|
    ensures forall i :: 0 <= i < |xs| ==> ys[i] == f(xs[i])
  {
    if xs == [] then [] else [f(xs[0])] + MapEach(f, xs[1..])
  }

  /**
   * `to_domain_list` and `from_dto_list`: the element conversion applied to
   * each item, in order; the first item whose conversion raises makes the
   * whole list raise with that error.
   */
  function MapEachOrFail<A, B, E>(f: A -> Result<B, E>, xs: seq<A>): (res: Result<seq<B>, E>)
    ensures res.Success? <==> forall i :: 0 <= i < |xs| ==> f(xs[i]).Success?
    ensures res.Success? ==> |res.value| == |xs| && forall i :: 0 <= i < |xs| ==> res.value[i] == f(xs[i]).value
    ensures res.Failure? ==> exists j :: 0 <= j < |xs| && f(xs[j]).Failure? && res.error == f(xs[j]).error
                                         && forall i :: 0 <= i < j ==> f(xs[i]).Success?
  {
    if xs == [] then Success([])
    else
      var y :- f(xs[0]);
      var ys :- MapEachOrFail(f, xs[1..]);
      Success([y] + ys)
  }

  /** When every item survives a conversion and its inverse, so does the list. */
  lemma ListRoundTrip<A, D, E>(enc: A -> D, dec: D -> Result<A, E>, xs: seq<A>)
    requires forall i :: 0 <= i < |xs| ==> dec(enc(xs[i])) == Success(xs[i])
    ensures MapEachOrFail(dec, MapEach(enc, xs)) == Success(xs)
  {
    var docs := MapEach(enc, xs);
    assert forall i :: 0 <= i < |docs| ==> dec(docs[i]).Success?;
    var back := MapEachOrFail(dec, docs);
    assert back.value == xs;
  }

  /** A list of valid records survives `to_persistence_list` followed by `to_domain_list`. */
  lemma ProjectListRoundTrip(rs: seq<Projects.ProjectRecord>)
    requires forall i :: 0 <= i < |rs| ==> Projects.ValidProject(rs[i])
    ensures MapEachOrFail(ProjectFromDoc, MapEach(ProjectToDoc, rs)) == Success(rs)
  {
    forall i | 0 <= i < |rs|
      ensures ProjectFromDoc(ProjectToDoc(rs[i])) == Success(rs[i])
    {
      ProjectRoundTrip(rs[i]);
    }
    ListRoundTrip(ProjectToDoc, ProjectFromDoc, rs);
  }

  /** A list of valid records survives `to_persistence_list` followed by `to_domain_list`. */
  lemma EducationListRoundTrip(rs: seq<Educations.EducationRecord>)
    requires forall i :: 0 <= i < |rs| ==> Educations.ValidEducation(rs[i])
    ensures MapEachOrFail(EducationFromDoc, MapEach(EducationToDoc, rs)) == Success(rs)
  {
    forall i | 0 <= i < |rs|
      ensures EducationFromDoc(EducationToDoc(rs[i])) == Success(rs[i])
    {
      EducationRoundTrip(rs[i]);
    }
    ListRoundTrip(EducationToDoc, EducationFromDoc, rs);
  }

  /** A list of valid records survives `to_persistence_list` followed by `to_domain_list`. */
  lemma CertificationListRoundTrip(rs: seq<Certifications.CertificationRecord>)
    requires forall i :: 0 <= i < |rs| ==> Certifications.ValidCertification(rs[i])
    ensures MapEachOrFail(CertificationFromDoc, MapEach(CertificationToDoc, rs)) == Success(rs)
  {
    forall i | 0 <= i < |rs|
      ensures CertificationFromDoc(CertificationToDoc(rs[i])) == Success(rs[i])
    {
      CertificationRoundTrip(rs[i]);
    }
    ListRoundTrip(CertificationToDoc, CertificationFromDoc, rs);
  }

  /** A list of valid records survives `to_persistence_list` followed by `to_domain_list`. */
  lemma TrainingListRoundTrip(rs: seq<AdditionalTrainings.TrainingRecord>)
    requires forall i :: 0 <= i < |rs| ==> AdditionalTrainings.ValidTraining(rs[i])
    ensures MapEachOrFail(TrainingFromDoc, MapEach(TrainingToDoc, rs)) == Success(rs)
  {
    forall i | 0 <= i < |rs|
      ensures TrainingFromDoc(TrainingToDoc(rs[i])) == Success(rs[i])
    {
      TrainingRoundTrip(rs[i]);
    }
    ListRoundTrip(TrainingToDoc, TrainingFromDoc, rs);
  }

  /** A list of valid records survives `to_persistence_list` followed by `to_domain_list`. */
  lemma ProfileListRoundTrip(rs: seq<Profiles.ProfileRecord>)
    requires forall i :: 0 <= i < |rs| ==> Profiles.ValidProfile(rs[i])
    ensures MapEachOrFail(ProfileFromDoc, MapEach(ProfileToDoc, rs)) == Success(rs)
  {
    forall i | 0 <= i < |rs|
      ensures ProfileFromDoc(ProfileToDoc(rs[i])) == Success(rs[i])
    {
      ProfileRoundTrip(rs[i]);
    }
    ListRoundTrip(ProfileToDoc, ProfileFromDoc, rs);
  }

  /** A list of valid records survives `to_persistence_list` followed by `to_domain_list`. */
  lemma ContactListRoundTrip(rs: seq<ContactInfos.ContactRecord>)
    requires forall i :: 0 <= i < |rs| ==> ContactInfos.ValidContact(rs[i])
    ensures MapEachOrFail(ContactFromDoc, MapEach(ContactToDoc, rs)) == Success(rs)
  {
    forall i | 0 <= i < |rs|
      ensures ContactFromDoc(ContactToDoc(rs[i])) == Success(rs[i])
    {
      ContactRoundTrip(rs[i]);
    }
    ListRoundTrip(ContactToDoc, ContactFromDoc, rs);
  }

  /** A list of valid records survives `to_persistence_list` followed by `to_domain_list`. */
  lemma NetworkListRoundTrip(rs: seq<SocialNetworks.NetworkRecord>)
    requires forall i :: 0 <= i < |rs| ==> SocialNetworks.ValidNetwork(rs[i])
    ensures MapEachOrFail(NetworkFromDoc, MapEach(NetworkToDoc, rs)) == Success(rs)
  {
    forall i | 0 <= i < |rs|
      ensures NetworkFromDoc(NetworkToDoc(rs[i])) == Success(rs[i])
    {
      NetworkRoundTrip(rs[i]);
    }
    ListRoundTrip(NetworkToDoc, NetworkFromDoc, rs);
  }

  /** A list of valid records survives `to_persistence_list` followed by `to_domain_list`. */
  lemma ToolListRoundTrip(rs: seq<Tools.ToolRecord>)
    requires forall i :: 0 <= i < |rs| ==> Tools.ValidTool(rs[i])
    ensures MapEachOrFail(ToolFromDoc, MapEach(ToolToDoc, rs)) == Success(rs)
  {
    forall i | 0 <= i < |rs|
      ensures ToolFromDoc(ToolToDoc(rs[i])) == Success(rs[i])
    {
      ToolRoundTrip(rs[i]);
    }
    ListRoundTrip(ToolToDoc, ToolFromDoc, rs);
  }

  /** A list of valid records survives `to_persistence_list` followed by `to_domain_list`. */
  lemma MessageListRoundTrip(rs: seq<ContactMessages.MessageRecord>)
    requires forall i :: 0 <= i < |rs| ==> ContactMessages.ValidMessage(rs[i])
    ensures MapEachOrFail(MessageFromDoc, MapEach(MessageToDoc, rs)) == Success(rs)
  {
    forall i | 0 <= i < |rs|
      ensures MessageFromDoc(MessageToDoc(rs[i])) == Success(rs[i])
    {
      MessageRoundTrip(rs[i]);
    }
    ListRoundTrip(MessageToDoc, MessageFromDoc, rs);
  }
}
