/**
 * The Project entity (app/domain/entities/project.py): a portfolio project
 * with a title, a description, a date range, two optional URLs and a list
 * of technologies. Construction validates every field; each `update_*`
 * method assigns first and validates afterwards, so a failing update leaves
 * its assignments in place.
 */
module Projects {
  import opened Common
  import opened Patterns

  const MaxTitleLength: nat := 100
  const MinDescriptionLength: nat := 10
  const MaxDescriptionLength: nat := 2000
  const MinDescriptionWithoutUrls: nat := 100
  const MaxTechnologies: nat := 20
  const MaxTechnologyLength: nat := 50

  datatype ProjectFields = ProjectFields(
    title: string,
    description: string,
    startDate: Timestamp,
    endDate: Option<Timestamp>,
    liveUrl: Option<string>,
    repoUrl: Option<string>,
    technologies: seq<string>)

  type ProjectRecord = Entry<ProjectFields>

  // ---------------------------------------------------------------------
  // The rules, stated declaratively

  predicate DescriptionOk(d: string) {
    !IsBlank(d) && MinDescriptionLength <= |d| <= MaxDescriptionLength
  }

  /** `has_urls`: `bool(live_url or repo_url)`, so an empty string counts as no URL. */
  predicate HasUrls(f: ProjectFields) {
    (f.liveUrl.Some? && f.liveUrl.value != []) || (f.repoUrl.Some? && f.repoUrl.value != [])
  }

  /** Business rule RB-PR09: without URLs the description needs 100 characters. */
  predicate Sufficient(f: ProjectFields) {
    HasUrls(f) || |f.description| >= MinDescriptionWithoutUrls
  }

  predicate TechnologiesOk(ts: seq<string>) {
    |ts| <= MaxTechnologies && ItemsOk(ts, MaxTechnologyLength)
  }

  predicate FieldsOk(f: ProjectFields) {
    RequiredTextOk(f.title, MaxTitleLength)
    && DescriptionOk(f.description)
    && DateRangeOk(f.startDate, f.endDate)
    && UrlOk(f.liveUrl) && UrlOk(f.repoUrl)
    && TechnologiesOk(f.technologies)
    && Sufficient(f)
  }

  /** The invariant every constructed Project satisfies. */
  predicate ValidProject(r: ProjectRecord) {
    PlacementOk(r) && FieldsOk(r.body)
  }

  // ---------------------------------------------------------------------
  // The validators

  function CheckTitle(t: string): Outcome {
    CheckRequiredText(t, InvalidTitle, "title", MaxTitleLength)
  }

  function CheckDescription(d: string): (o: Outcome)
    ensures o.Pass? <==> DescriptionOk(d)
  {
    if IsBlank(d) then Fail(InvalidDescription(Empty))
    else if |d| < MinDescriptionLength then Fail(InvalidLength("description", AtLeast(MinDescriptionLength)))
    else if |d| > MaxDescriptionLength then Fail(InvalidLength("description", AtMost(MaxDescriptionLength)))
    else Pass
  }

  function CheckSufficiency(f: ProjectFields): (o: Outcome)
    ensures o.Pass? <==> Sufficient(f)
  {
    if !HasUrls(f) && |f.description| < MinDescriptionWithoutUrls then Fail(InvalidDescription(TooShortWithoutUrls))
    else Pass
  }

  function CheckTechnologies(ts: seq<string>): (o: Outcome)
    ensures o.Pass? <==> TechnologiesOk(ts)
  {
    CheckList(ts, "technologies", "technology item", MaxTechnologies, MaxTechnologyLength)
  }

  /**
   * `_validate_urls`: the live URL is coerced and checked, then the repo
   * URL; the state it leaves is returned with the outcome, since a failure
   * on the repo URL keeps the live URL's coercion.
   */
  function ValidateUrls(f: ProjectFields): (s: Step<ProjectFields>)
    ensures s.state == f.(liveUrl := s.state.liveUrl, repoUrl := s.state.repoUrl)
    ensures s.state.liveUrl == BlankToNone(f.liveUrl)
    ensures s.outcome.Pass? <==> UrlOk(BlankToNone(f.liveUrl)) && UrlOk(BlankToNone(f.repoUrl))
    ensures s.outcome.Pass? ==> s.state.repoUrl == BlankToNone(f.repoUrl)
  {
    var live := BlankToNone(f.liveUrl);
    var o := CheckUrl(live);
    if o.Fail? then Step(f.(liveUrl := live), o)
    else
      var repo := BlankToNone(f.repoUrl);
      Step(f.(liveUrl := live, repoUrl := repo), CheckUrl(repo))
  }

  /** The record with both URLs coerced as `_validate_urls` does. */
  function Normalized(r: ProjectRecord): ProjectRecord {
    r.(body := r.body.(liveUrl := BlankToNone(r.body.liveUrl), repoUrl := BlankToNone(r.body.repoUrl)))
  }

  /**
   * Constructing a Project, i.e. the dataclass `__init__` followed by
   * `__post_init__`: profile_id, title, description, dates, URLs,
   * technologies, order_index and description sufficiency are validated in
   * that order and the first failure is raised. It succeeds exactly on
   * records that are valid once their URLs are coerced, and a valid record
   * comes back unchanged.
   */
  function Construct(r: ProjectRecord): (res: Result<ProjectRecord, DomainError>)
    ensures res.Success? <==> ValidProject(Normalized(r))
    ensures res.Success? ==> res.value == Normalized(r)
    ensures ValidProject(r) ==> res == Success(r)
  {
    var n := Normalized(r);
    :- CheckProfileId(r.profileId);
    :- CheckTitle(r.body.title);
    :- CheckDescription(r.body.description);
    :- CheckDateRange(r.body.startDate, r.body.endDate);
    var urls := ValidateUrls(r.body);
    :- urls.outcome;
    :- CheckTechnologies(r.body.technologies);
    :- CheckOrderIndex(r.orderIndex);
    :- CheckSufficiency(n.body);
    Success(n)
  }

  /** The checks apply in source order: an earlier failure hides every later one. */
  lemma ConstructChecksInOrder(r: ProjectRecord)
    ensures IsBlank(r.profileId) ==> Construct(r) == Failure(EmptyField("profile_id"))
    ensures !IsBlank(r.profileId) && IsBlank(r.body.title) ==> Construct(r) == Failure(InvalidTitle)
    ensures !IsBlank(r.profileId) && RequiredTextOk(r.body.title, MaxTitleLength) && IsBlank(r.body.description)
            ==> Construct(r) == Failure(InvalidDescription(Empty))
  {
  }

  /** The record `Project.create` builds: a new id, `technologies or []`, both timestamps `now`. */
  function NewRecord(profileId: Id, title: string, description: string, startDate: Timestamp,
                     orderIndex: int, endDate: Option<Timestamp>, liveUrl: Option<string>,
                     repoUrl: Option<string>, technologies: Option<seq<string>>,
                     newId: Id, now: Timestamp): ProjectRecord
  {
    Entry(newId, profileId, orderIndex,
          ProjectFields(title, description, startDate, endDate, liveUrl, repoUrl,
                        if technologies.Some? then technologies.value else []),
          now, now)
  }

  // ---------------------------------------------------------------------
  // The updates, as transitions on the fields

  /**
   * `update_info` on the fields: a given title is assigned then checked,
   * then a given description; the given dates are assigned; finally the
   * date range and the description sufficiency are checked. A rejected
   * value stays assigned.
   */
  function InfoApplied(f: ProjectFields, title: Option<string>, description: Option<string>,
                       startDate: Option<Timestamp>, endDate: Option<Timestamp>): Step<ProjectFields>
  {
    if title.Some? then
      var f1 := f.(title := title.value);
      var c := CheckTitle(title.value);
      if c.Fail? then Step(f1, c) else DescriptionApplied(f1, description, startDate, endDate)
    else DescriptionApplied(f, description, startDate, endDate)
  }

  /** The rest of `update_info` once the title is settled. */
  function DescriptionApplied(f: ProjectFields, description: Option<string>,
                              startDate: Option<Timestamp>, endDate: Option<Timestamp>): Step<ProjectFields>
  {
    if description.Some? then
      var f1 := f.(description := description.value);
      var c := CheckDescription(description.value);
      if c.Fail? then Step(f1, c) else DatesApplied(f1, startDate, endDate)
    else DatesApplied(f, startDate, endDate)
  }

  /** The end of `update_info`: the dates are applied, then the range and the sufficiency are checked. */
  function DatesApplied(f: ProjectFields, startDate: Option<Timestamp>, endDate: Option<Timestamp>): Step<ProjectFields>
  {
    var f1 := f.(startDate := Pick(startDate, f.startDate), endDate := PickOpt(endDate, f.endDate));
    Step(f1, Then(CheckDateRange(f1.startDate, f1.endDate), CheckSufficiency(f1)))
  }

  function InfoUpdated(r: ProjectRecord, title: Option<string>, description: Option<string>,
                       startDate: Option<Timestamp>, endDate: Option<Timestamp>, now: Timestamp): Step<ProjectRecord>
  {
    Touched(r, InfoApplied(r.body, title, description, startDate, endDate), now)
  }

  /** The fields once every given argument of `update_info` is applied. */
  function InfoTarget(f: ProjectFields, title: Option<string>, description: Option<string>,
                      startDate: Option<Timestamp>, endDate: Option<Timestamp>): ProjectFields
  {
    f.(title := Pick(title, f.title), description := Pick(description, f.description),
       startDate := Pick(startDate, f.startDate), endDate := PickOpt(endDate, f.endDate))
  }

  /** Every given title and description passes its check, and the updated project has a date range and enough description. */
  predicate InfoAcceptable(f: ProjectFields, title: Option<string>, description: Option<string>,
                           startDate: Option<Timestamp>, endDate: Option<Timestamp>)
  {
    (title.None? || RequiredTextOk(title.value, MaxTitleLength))
    && (description.None? || DescriptionOk(description.value))
    && DateRangeOk(Pick(startDate, f.startDate), PickOpt(endDate, f.endDate))
    && Sufficient(InfoTarget(f, title, description, startDate, endDate))
  }

  lemma DescriptionAppliedMeaning(f: ProjectFields, description: Option<string>,
                                  startDate: Option<Timestamp>, endDate: Option<Timestamp>)
    ensures var s := DescriptionApplied(f, description, startDate, endDate);
            (s.outcome.Pass? <==> InfoAcceptable(f, None, description, startDate, endDate))
            && (s.outcome.Pass? ==> s.state == InfoTarget(f, None, description, startDate, endDate))
            && s.state.title == f.title
            && s.state.liveUrl == f.liveUrl && s.state.repoUrl == f.repoUrl
            && s.state.technologies == f.technologies
  {
  }

  /**
   * `update_info` succeeds exactly when every given title and description
   * is acceptable and the result has a valid date range and a sufficient
   * description; then exactly the given fields have changed. URLs and
   * technologies never change, and a given title stays assigned even when
   * a later check fails.
   */
  lemma InfoAppliedMeaning(f: ProjectFields, title: Option<string>, description: Option<string>,
                           startDate: Option<Timestamp>, endDate: Option<Timestamp>)
    ensures var s := InfoApplied(f, title, description, startDate, endDate);
            (s.outcome.Pass? <==> InfoAcceptable(f, title, description, startDate, endDate))
            && (s.outcome.Pass? ==> s.state == InfoTarget(f, title, description, startDate, endDate))
            && s.state.title == Pick(title, f.title)
            && s.state.liveUrl == f.liveUrl && s.state.repoUrl == f.repoUrl
            && s.state.technologies == f.technologies
  {
    if title.Some? {
      DescriptionAppliedMeaning(f.(title := title.value), description, startDate, endDate);
    } else {
      DescriptionAppliedMeaning(f, description, startDate, endDate);
    }
  }

  /** A successful `update_info` keeps a valid project valid. */
  lemma InfoUpdatePreservesValid(r: ProjectRecord, title: Option<string>, description: Option<string>,
                                 startDate: Option<Timestamp>, endDate: Option<Timestamp>, now: Timestamp)
    requires ValidProject(r)
    requires InfoUpdated(r, title, description, startDate, endDate, now).outcome.Pass?
    ensures ValidProject(InfoUpdated(r, title, description, startDate, endDate, now).state)
  {
    InfoAppliedMeaning(r.body, title, description, startDate, endDate);
  }

  /** A failing `update_info` is not rolled back: a rejected title stays, and the project is then invalid. */
  lemma RejectedTitleStays(f: ProjectFields, title: string)
    requires !RequiredTextOk(title, MaxTitleLength)
    ensures InfoApplied(f, Some(title), None, None, None) == Step(f.(title := title), CheckTitle(title))
    ensures !FieldsOk(InfoApplied(f, Some(title), None, None, None).state)
  {
  }

  /** `update_info` cannot clear the end date: None means "keep". */
  lemma EndDateNotCleared(f: ProjectFields)
    ensures InfoApplied(f, None, None, None, None).state.endDate == f.endDate
  {
  }

  /** Equal start and end dates are refused. */
  lemma EqualDatesRefused(f: ProjectFields, d: Timestamp)
    ensures InfoApplied(f, None, None, Some(d), Some(d)).outcome.Fail?
  {
  }

  /**
   * `update_urls` on the fields: given URLs are assigned, then
   * `_validate_urls` coerces and checks both, then sufficiency is checked.
   */
  function UrlsApplied(f: ProjectFields, liveUrl: Option<string>, repoUrl: Option<string>): (s: Step<ProjectFields>)
    ensures s.state.(liveUrl := f.liveUrl, repoUrl := f.repoUrl) == f
    ensures s.state.liveUrl == BlankToNone(PickOpt(liveUrl, f.liveUrl))
    ensures s.outcome.Pass? ==> s.state.repoUrl == BlankToNone(PickOpt(repoUrl, f.repoUrl))
    ensures s.outcome.Pass? <==>
              UrlOk(BlankToNone(PickOpt(liveUrl, f.liveUrl))) && UrlOk(BlankToNone(PickOpt(repoUrl, f.repoUrl)))
              && Sufficient(s.state)
  {
    var v := ValidateUrls(f.(liveUrl := PickOpt(liveUrl, f.liveUrl), repoUrl := PickOpt(repoUrl, f.repoUrl)));
    if v.outcome.Fail? then v else Step(v.state, CheckSufficiency(v.state))
  }

  function UrlsUpdated(r: ProjectRecord, liveUrl: Option<string>, repoUrl: Option<string>, now: Timestamp): Step<ProjectRecord> {
    Touched(r, UrlsApplied(r.body, liveUrl, repoUrl), now)
  }

  /** A successful `update_urls` keeps a valid project valid. */
  lemma UrlsUpdatePreservesValid(r: ProjectRecord, liveUrl: Option<string>, repoUrl: Option<string>, now: Timestamp)
    requires ValidProject(r)
    requires UrlsUpdated(r, liveUrl, repoUrl, now).outcome.Pass?
    ensures ValidProject(UrlsUpdated(r, liveUrl, repoUrl, now).state)
  {
  }

  /** Clearing both URLs of a project whose description is shorter than 100 characters is refused. */
  lemma ClearingUrlsNeedsLongDescription(f: ProjectFields)
    requires |f.description| < MinDescriptionWithoutUrls
    ensures UrlsApplied(f, Some(""), Some("")).outcome.Fail?
  {
    assert IsBlank("");
  }

  /** `update_technologies`: the list is replaced, then validated. */
  function TechnologiesReplaced(r: ProjectRecord, technologies: seq<string>, now: Timestamp): (s: Step<ProjectRecord>)
    ensures s.state.body == r.body.(technologies := technologies)
    ensures s.outcome.Pass? <==> TechnologiesOk(technologies)
    ensures ValidProject(r) && s.outcome.Pass? ==> ValidProject(s.state)
  {
    Touched(r, Step(r.body.(technologies := technologies), CheckTechnologies(technologies)), now)
  }

  /**
   * `add_technology`: refused when 20 technologies are already listed, when
   * the item is blank or longer than 50 characters; otherwise exactly that
   * item is appended after the existing ones.
   */
  function TechnologyAdded(r: ProjectRecord, technology: string, now: Timestamp): (s: Step<ProjectRecord>)
    ensures s.outcome.Pass? <==> |r.body.technologies| < MaxTechnologies && RequiredTextOk(technology, MaxTechnologyLength)
    ensures s.outcome.Pass? ==> s.state == r.(body := r.body.(technologies := r.body.technologies + [technology]), updatedAt := now)
    ensures s.outcome.Fail? ==> s.state == r
    ensures ValidProject(r) && s.outcome.Pass? ==> ValidProject(s.state)
  {
    var c := CheckAppend(r.body.technologies, technology, "technologies", "technology", MaxTechnologies, MaxTechnologyLength);
    if c.Fail? then Step(r, c)
    else Step(r.(body := r.body.(technologies := r.body.technologies + [technology]), updatedAt := now), Pass)
  }

  /** A 21st technology is refused and the list is left as it was. */
  lemma TwentyFirstRefused(r: ProjectRecord, technology: string, now: Timestamp)
    requires |r.body.technologies| == MaxTechnologies
    ensures TechnologyAdded(r, technology, now) == Step(r, Fail(InvalidLength("technologies", AtMost(MaxTechnologies))))
  {
  }

  // ---------------------------------------------------------------------
  // The entity object

  class Project {
    var id: Id
    var profileId: Id
    var title: string
    var description: string
    var startDate: Timestamp
    var orderIndex: int
    var endDate: Option<Timestamp>
    var liveUrl: Option<string>
    var repoUrl: Option<string>
    var technologies: seq<string>
    var createdAt: Timestamp
    var updatedAt: Timestamp

    /** The field values as a record. */
    function Record(): ProjectRecord
      reads this
    {
      Entry(id, profileId, orderIndex,
            ProjectFields(title, description, startDate, endDate, liveUrl, repoUrl, technologies),
            createdAt, updatedAt)
    }

    predicate Valid()
      reads this
    {
      ValidProject(Record())
    }

    /** The generated dataclass `__init__`: assigns the fields, validates nothing. */
    constructor Init(r: ProjectRecord)
      ensures Record() == r
    {
      id, profileId, orderIndex := r.id, r.profileId, r.orderIndex;
      title, description := r.body.title, r.body.description;
      startDate, endDate := r.body.startDate, r.body.endDate;
      liveUrl, repoUrl := r.body.liveUrl, r.body.repoUrl;
      technologies := r.body.technologies;
      createdAt, updatedAt := r.createdAt, r.updatedAt;
    }

    /** `Project(...)`: allocation followed by `__post_init__`; only a valid project is returned. */
    static method Build(r: ProjectRecord) returns (res: Result<Project, DomainError>)
      ensures res.Success? <==> Construct(r).Success?
      ensures res.Success? ==> fresh(res.value) && res.value.Record() == Construct(r).value && res.value.Valid()
      ensures res.Failure? ==> res.error == Construct(r).error
    {
      var c := Construct(r);
      if c.Failure? {
        return Failure(c.error);
      }
      var p := new Project.Init(c.value);
      return Success(p);
    }

    /** `Project.create`. */
    static method Create(profileId: Id, title: string, description: string, startDate: Timestamp,
                         orderIndex: int, endDate: Option<Timestamp>, liveUrl: Option<string>,
                         repoUrl: Option<string>, technologies: Option<seq<string>>,
                         newId: Id, now: Timestamp) returns (res: Result<Project, DomainError>)
      ensures var r := NewRecord(profileId, title, description, startDate, orderIndex, endDate,
                                 liveUrl, repoUrl, technologies, newId, now);
              (res.Success? <==> Construct(r).Success?)
              && (res.Success? ==> fresh(res.value) && res.value.Record() == Construct(r).value && res.value.Valid())
              && (res.Failure? ==> res.error == Construct(r).error)
    {
      res := Build(NewRecord(profileId, title, description, startDate, orderIndex, endDate,
                             liveUrl, repoUrl, technologies, newId, now));
    }

    method UpdateInfo(newTitle: Option<string>, newDescription: Option<string>,
                      newStart: Option<Timestamp>, newEnd: Option<Timestamp>, now: Timestamp) returns (o: Outcome)
      modifies this
      ensures Record() == InfoUpdated(old(Record()), newTitle, newDescription, newStart, newEnd, now).state
      ensures o == InfoUpdated(old(Record()), newTitle, newDescription, newStart, newEnd, now).outcome
    {
      o := ApplyInfo(newTitle, newDescription, newStart, newEnd);
      if o.Fail? { return; }
      updatedAt := now;
    }

    /** The assignments and checks of `update_info`, before `_mark_as_updated`. */
    method ApplyInfo(newTitle: Option<string>, newDescription: Option<string>,
                     newStart: Option<Timestamp>, newEnd: Option<Timestamp>) returns (o: Outcome)
      modifies this
      ensures Record() == old(Record()).(body := InfoApplied(old(Record()).body, newTitle, newDescription, newStart, newEnd).state)
      ensures o == InfoApplied(old(Record()).body, newTitle, newDescription, newStart, newEnd).outcome
    {
      if newTitle.Some? {
        title := newTitle.value;
        o := CheckTitle(title);
        if o.Fail? { return; }
      }
      o := ApplyDescription(newDescription, newStart, newEnd);
    }

    method ApplyDescription(newDescription: Option<string>, newStart: Option<Timestamp>, newEnd: Option<Timestamp>)
      returns (o: Outcome)
      modifies this
      ensures Record() == old(Record()).(body := DescriptionApplied(old(Record()).body, newDescription, newStart, newEnd).state)
      ensures o == DescriptionApplied(old(Record()).body, newDescription, newStart, newEnd).outcome
    {
      if newDescription.Some? {
        description := newDescription.value;
        o := CheckDescription(description);
        if o.Fail? { return; }
      }
      o := ApplyDates(newStart, newEnd);
    }

    method ApplyDates(newStart: Option<Timestamp>, newEnd: Option<Timestamp>) returns (o: Outcome)
      modifies this
      ensures Record() == old(Record()).(body := DatesApplied(old(Record()).body, newStart, newEnd).state)
      ensures o == DatesApplied(old(Record()).body, newStart, newEnd).outcome
    {
      if newStart.Some? {
        startDate := newStart.value;
      }
      if newEnd.Some? {
        endDate := newEnd;
      }
      o := CheckDateRange(startDate, endDate);
      if o.Fail? { return; }
      o := CheckSufficiency(Record().body);
    }

    /** `_validate_urls` on the object: writes the coerced URLs back as it goes. */
    method ValidateUrlFields() returns (o: Outcome)
      modifies this
      ensures Record() == old(Record()).(body := ValidateUrls(old(Record()).body).state)
      ensures o == ValidateUrls(old(Record()).body).outcome
    {
      liveUrl := BlankToNone(liveUrl);
      o := CheckUrl(liveUrl);
      if o.Fail? { return; }
      repoUrl := BlankToNone(repoUrl);
      o := CheckUrl(repoUrl);
    }

    method UpdateUrls(newLive: Option<string>, newRepo: Option<string>, now: Timestamp) returns (o: Outcome)
      modifies this
      ensures Record() == UrlsUpdated(old(Record()), newLive, newRepo, now).state
      ensures o == UrlsUpdated(old(Record()), newLive, newRepo, now).outcome
    {
      if newLive.Some? {
        liveUrl := newLive;
      }
      if newRepo.Some? {
        repoUrl := newRepo;
      }
      o := ValidateUrlFields();
      if o.Fail? { return; }
      o := CheckSufficiency(Record().body);
      if o.Fail? { return; }
      updatedAt := now;
    }

    method UpdateTechnologies(newTechnologies: seq<string>, now: Timestamp) returns (o: Outcome)
      modifies this
      ensures Record() == TechnologiesReplaced(old(Record()), newTechnologies, now).state
      ensures o == TechnologiesReplaced(old(Record()), newTechnologies, now).outcome
    {
      technologies := newTechnologies;
      o := CheckTechnologies(technologies);
      if o.Fail? { return; }
      updatedAt := now;
    }

    method AddTechnology(technology: string, now: Timestamp) returns (o: Outcome)
      modifies this
      ensures Record() == TechnologyAdded(old(Record()), technology, now).state
      ensures o == TechnologyAdded(old(Record()), technology, now).outcome
    {
      if |technologies| >= MaxTechnologies {
        return Fail(InvalidLength("technologies", AtMost(MaxTechnologies)));
      }
      if IsBlank(technology) {
        return Fail(EmptyField("technology"));
      }
      if |technology| > MaxTechnologyLength {
        return Fail(InvalidLength("technology", AtMost(MaxTechnologyLength)));
      }
      technologies := technologies + [technology];
      updatedAt := now;
      o := Pass;
    }

    method UpdateOrder(newIndex: int, now: Timestamp) returns (o: Outcome)
      modifies this
      ensures Record() == Reindexed(old(Record()), newIndex, now).state
      ensures o == Reindexed(old(Record()), newIndex, now).outcome
    {
      orderIndex := newIndex;
      o := CheckOrderIndex(orderIndex);
      if o.Fail? { return; }
      updatedAt := now;
    }

    /** `is_ongoing`. */
    method IsOngoing() returns (b: bool)
      ensures b <==> endDate.None?
    {
      b := endDate.None?;
    }

    /** `has_urls`. */
    method HasAnyUrl() returns (b: bool)
      ensures b <==> HasUrls(Record().body)
    {
      b := (liveUrl.Some? && liveUrl.value != "") || (repoUrl.Some? && repoUrl.value != "");
    }
  }
}
