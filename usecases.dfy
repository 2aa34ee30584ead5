/**
 * The application use cases of app/application/use_cases/: each checks a
 * business rule against a repository, builds or updates the domain entity
 * (whose validation may raise), and persists the result only when nothing
 * raised. `newId` and `now` stand for the uuid4 and the clock reading the
 * entity factories take.
 */
module UseCases {
  import opened Common
  import opened Stores
  import opened Repositories
  import Skills
  import WorkExperiences
  import Educations
  import Profiles

  /** NotFoundException, DuplicateException, BusinessRuleViolationException, or a DomainError raised by an entity. */
  datatype AppError =
    | NotFound(entity: string, key: string)
    | Duplicate(entity: string, field: string, value: string)
    | BusinessRuleViolation(orderIndex: int)
    | Domain(error: DomainError)

  // ---------------------------------------------------------------------
  // Skills

  /** Within each profile no two skills share a name: what `exists_by_name` guards. */
  predicate UniqueNames(docs: Store<Skills.SkillFields>) {
    forall a, b :: a in docs && b in docs && a != b && docs[a].profileId == docs[b].profileId
                   ==> docs[a].body.name != docs[b].body.name
  }

  /** Adding a skill whose name its profile does not use yet keeps names unique. */
  lemma InsertKeepsUniqueNames(docs: Store<Skills.SkillFields>, e: Skills.SkillRecord)
    requires UniqueNames(docs) && e.id !in docs
    requires !NameTaken(docs, e.profileId, e.body.name)
    ensures UniqueNames(docs[e.id := e])
  {
    var d := docs[e.id := e];
    forall a, b | a in d && b in d && a != b && d[a].profileId == d[b].profileId
      ensures d[a].body.name != d[b].body.name
    {
      if a == e.id {
        assert b in docs && docs[b].profileId == e.profileId;
      } else if b == e.id {
        assert a in docs && docs[a].profileId == e.profileId;
      }
    }
  }

  /**
   * Replacing a skill by one of the same profile keeps names unique when
   * the name is unchanged or not used by the profile yet.
   */
  lemma ReplaceKeepsUniqueNames(docs: Store<Skills.SkillFields>, e: Skills.SkillRecord)
    requires UniqueNames(docs) && e.id in docs && docs[e.id].profileId == e.profileId
    requires e.body.name == docs[e.id].body.name || !NameTaken(docs, e.profileId, e.body.name)
    ensures UniqueNames(docs[e.id := e])
  {
    var d := docs[e.id := e];
    forall a, b | a in d && b in d && a != b && d[a].profileId == d[b].profileId
      ensures d[a].body.name != d[b].body.name
    {
      if a == e.id {
        assert b in docs && docs[b].profileId == e.profileId;
      } else if b == e.id {
        assert a in docs && docs[a].profileId == e.profileId;
      }
    }
  }

  /**
   * AddSkillUseCase: a name the profile already uses is a Duplicate; then
   * `Skill.create` validates; only a valid skill is added.
   */
  method AddSkill(repo: SkillRepository, profileId: Id, name: string, category: string, orderIndex: int,
                  level: Option<string>, newId: Id, now: Timestamp) returns (r: Result<Skills.SkillRecord, AppError>)
    requires newId !in repo.docs
    modifies repo
    ensures var e := Skills.NewRecord(profileId, name, category, orderIndex, level, newId, now);
            if NameTaken(old(repo.docs), profileId, name) then
              r == Failure(Duplicate("Skill", "name", name)) && repo.docs == old(repo.docs)
            else if !Skills.ValidSkill(e) then
              r == Failure(Domain(Skills.Construct(e).error)) && repo.docs == old(repo.docs)
            else
              r == Success(e) && repo.docs == old(repo.docs)[newId := e]
    ensures UniqueNames(old(repo.docs)) ==> UniqueNames(repo.docs)
    ensures old(repo.Valid()) ==> repo.Valid()
  {
    var taken := ExistsByName(repo, profileId, name);
    if taken {
      return Failure(Duplicate("Skill", "name", name));
    }
    var created := Skills.Skill.Create(profileId, name, category, orderIndex, level, newId, now);
    if created.Failure? {
      return Failure(Domain(created.error));
    }
    var e := created.value.Record();
    var inserted := repo.Add(e);
    if UniqueNames(old(repo.docs)) {
      InsertKeepsUniqueNames(old(repo.docs), e);
    }
    r := Success(e);
  }

  /** The rename check of EditSkillUseCase runs only for a non-empty name that differs from the current one. */
  predicate Renames(current: Skills.SkillRecord, name: Option<string>) {
    name.Some? && name.value != "" && name.value != current.body.name
  }

  /**
   * EditSkillUseCase: an unknown id is NotFound; a rename to a name the
   * profile uses is a Duplicate; then `update_info` runs and the skill is
   * persisted only when it did not raise.
   */
  method EditSkill(repo: SkillRepository, skillId: Id, name: Option<string>, category: Option<string>,
                   level: Option<string>, now: Timestamp) returns (r: Result<Skills.SkillRecord, AppError>)
    requires repo.Valid()
    modifies repo
    ensures skillId !in old(repo.docs) ==> r == Failure(NotFound("Skill", skillId)) && repo.docs == old(repo.docs)
    ensures skillId in old(repo.docs) ==>
              var cur := old(repo.docs)[skillId];
              var s := Skills.InfoUpdated(cur, name, category, level, now);
              if Renames(cur, name) && NameTaken(old(repo.docs), cur.profileId, name.value) then
                r == Failure(Duplicate("Skill", "name", name.value)) && repo.docs == old(repo.docs)
              else if s.outcome.Fail? then
                r == Failure(Domain(s.outcome.error)) && repo.docs == old(repo.docs)
              else
                r == Success(s.state) && repo.docs == old(repo.docs)[skillId := s.state]
    ensures repo.Valid() && (UniqueNames(old(repo.docs)) ==> UniqueNames(repo.docs))
  {
    var found := repo.GetById(skillId);
    if found.None? {
      return Failure(NotFound("Skill", skillId));
    }
    var cur := found.value;
    if name.Some? && name.value != "" && name.value != cur.body.name {
      var taken := ExistsByName(repo, cur.profileId, name.value);
      if taken {
        return Failure(Duplicate("Skill", "name", name.value));
      }
    }
    var skill := new Skills.Skill.Init(cur);
    var o := skill.UpdateInfo(name, category, level, now);
    if o.Fail? {
      return Failure(Domain(o.error));
    }
    var e := skill.Record();
    Skills.InfoAppliedMeaning(cur.body, name, category, level);
    if UniqueNames(old(repo.docs)) {
      ReplaceKeepsUniqueNames(old(repo.docs), e);
    }
    repo.Update(e);
    r := Success(e);
  }

  /** `request.category` is truthy: given and not the empty string. */
  function SkillQuery(docs: Store<Skills.SkillFields>, p: Id, category: Option<string>): set<Id> {
    if category.Some? && category.value != "" then InCategory(docs, p, category.value) else OfProfile(docs, p)
  }

  /**
   * ListSkillsUseCase: the profile's skills, of one category when a
   * category is given, sorted by `order_index` in the requested direction.
   */
  method ListSkills(repo: SkillRepository, p: Id, category: Option<string>, asc: bool) returns (r: seq<Skills.SkillRecord>)
    requires repo.Valid()
    ensures FoundIn(r, repo.docs, SkillQuery(repo.docs, p, category))
    ensures SortedBy(r, IndexKey, asc)
  {
    var found;
    if category.Some? && category.value != "" {
      found := FindByCategory(repo, p, category.value);
    } else {
      found := repo.FindByProfile(p);
    }
    r := SortBy(found, IndexKey, asc);
    FoundInPermuted(found, r, repo.docs, SkillQuery(repo.docs, p, category));
  }

  // ---------------------------------------------------------------------
  // Ordered entities: experience and education

  /** Adding an entry of `p` at an index `p` does not use keeps every profile's indices distinct. */
  lemma InsertKeepsIndicesDistinct<T>(docs: Store<T>, e: Entry<T>, q: Id)
    requires IndicesDistinct(docs, q) && e.id !in docs
    requires !IndexTaken(docs, e.profileId, e.orderIndex)
    ensures IndicesDistinct(docs[e.id := e], q)
  {
    var d := docs[e.id := e];
    forall a, b | a in d && b in d && a != b && d[a].profileId == q && d[b].profileId == q
      ensures d[a].orderIndex != d[b].orderIndex
    {
      if a == e.id {
        assert b in docs && docs[b].profileId == e.profileId;
      } else if b == e.id {
        assert a in docs && docs[a].profileId == e.profileId;
      }
    }
  }

  /** Replacing an entry by one with the same profile and index keeps every profile's indices distinct. */
  lemma ReplaceKeepsIndicesDistinct<T>(docs: Store<T>, e: Entry<T>, q: Id)
    requires IndicesDistinct(docs, q) && e.id in docs
    requires docs[e.id].profileId == e.profileId && docs[e.id].orderIndex == e.orderIndex
    ensures IndicesDistinct(docs[e.id := e], q)
  {
  }

  /**
   * AddExperienceUseCase: an index the profile already uses is a
   * BusinessRuleViolation, checked before any validation; then
   * `WorkExperience.create` validates; only a valid experience is added.
   */
  method AddExperience(repo: ExperienceRepository, profileId: Id, role: string, company: string,
                       startDate: Timestamp, orderIndex: int, description: Option<string>,
                       endDate: Option<Timestamp>, responsibilities: Option<seq<string>>,
                       newId: Id, now: Timestamp) returns (r: Result<WorkExperiences.ExperienceRecord, AppError>)
    requires newId !in repo.docs
    modifies repo
    ensures var c := WorkExperiences.Construct(WorkExperiences.NewRecord(profileId, role, company, startDate, orderIndex,
                                                                         description, endDate, responsibilities, newId, now));
            if IndexTaken(old(repo.docs), profileId, orderIndex) then
              r == Failure(BusinessRuleViolation(orderIndex)) && repo.docs == old(repo.docs)
            else if c.Failure? then
              r == Failure(Domain(c.error)) && repo.docs == old(repo.docs)
            else
              r == Success(c.value) && repo.docs == old(repo.docs)[newId := c.value]
    ensures forall q :: IndicesDistinct(old(repo.docs), q) ==> IndicesDistinct(repo.docs, q)
    ensures old(repo.Valid()) ==> repo.Valid()
  {
    var existing := repo.GetByOrderIndex(profileId, orderIndex);
    if existing.Some? {
      return Failure(BusinessRuleViolation(orderIndex));
    }
    var created := WorkExperiences.WorkExperience.Create(profileId, role, company, startDate, orderIndex,
                                                         description, endDate, responsibilities, newId, now);
    if created.Failure? {
      return Failure(Domain(created.error));
    }
    var e := created.value.Record();
    var inserted := repo.Add(e);
    forall q | IndicesDistinct(old(repo.docs), q)
      ensures IndicesDistinct(repo.docs, q)
    {
      InsertKeepsIndicesDistinct(old(repo.docs), e, q);
    }
    r := Success(e);
  }

  /** EditExperienceUseCase on the record: `update_info`, then `update_responsibilities` when a list is given. */
  function ExperienceEdited(r: WorkExperiences.ExperienceRecord, role: Option<string>, company: Option<string>,
                            description: Option<string>, startDate: Option<Timestamp>, endDate: Option<Timestamp>,
                            responsibilities: Option<seq<string>>, now: Timestamp): Step<WorkExperiences.ExperienceRecord>
  {
    var s := WorkExperiences.InfoUpdated(r, role, company, description, startDate, endDate, now);
    if s.outcome.Fail? || responsibilities.None? then s
    else WorkExperiences.ResponsibilitiesReplaced(s.state, responsibilities.value, now)
  }

  /**
   * A successful edit keeps a valid experience valid, keeps its id,
   * profile, index and creation time, and stamps `updated_at`; a list of
   * responsibilities, when given, is what the experience then holds.
   */
  lemma ExperienceEditKeepsValid(r: WorkExperiences.ExperienceRecord, role: Option<string>, company: Option<string>,
                                 description: Option<string>, startDate: Option<Timestamp>, endDate: Option<Timestamp>,
                                 responsibilities: Option<seq<string>>, now: Timestamp)
    requires WorkExperiences.ValidExperience(r)
    requires ExperienceEdited(r, role, company, description, startDate, endDate, responsibilities, now).outcome.Pass?
    ensures var t := ExperienceEdited(r, role, company, description, startDate, endDate, responsibilities, now).state;
            WorkExperiences.ValidExperience(t)
            && t.id == r.id && t.profileId == r.profileId && t.orderIndex == r.orderIndex
            && t.createdAt == r.createdAt && t.updatedAt == now
            && (responsibilities.Some? ==> t.body.responsibilities == responsibilities.value)
  {
    WorkExperiences.InfoUpdatePreservesValid(r, role, company, description, startDate, endDate, now);
  }

  /**
   * EditExperienceUseCase: an unknown id is NotFound; otherwise the edit
   * runs and the experience is persisted only when nothing raised.
   */
  method EditExperience(repo: ExperienceRepository, experienceId: Id, role: Option<string>, company: Option<string>,
                        description: Option<string>, startDate: Option<Timestamp>, endDate: Option<Timestamp>,
                        responsibilities: Option<seq<string>>, now: Timestamp)
    returns (r: Result<WorkExperiences.ExperienceRecord, AppError>)
    requires repo.Valid()
    modifies repo
    ensures experienceId !in old(repo.docs) ==>
              r == Failure(NotFound("WorkExperience", experienceId)) && repo.docs == old(repo.docs)
    ensures experienceId in old(repo.docs) ==>
              var s := ExperienceEdited(old(repo.docs)[experienceId], role, company, description, startDate, endDate,
                                        responsibilities, now);
              if s.outcome.Fail? then r == Failure(Domain(s.outcome.error)) && repo.docs == old(repo.docs)
              else r == Success(s.state) && repo.docs == old(repo.docs)[experienceId := s.state]
    ensures forall q :: IndicesDistinct(old(repo.docs), q) ==> IndicesDistinct(repo.docs, q)
    ensures repo.Valid()
  {
    var found := repo.GetById(experienceId);
    if found.None? {
      return Failure(NotFound("WorkExperience", experienceId));
    }
    var exp := new WorkExperiences.WorkExperience.Init(found.value);
    var o := exp.UpdateInfo(role, company, description, startDate, endDate, now);
    if o.Fail? {
      return Failure(Domain(o.error));
    }
    if responsibilities.Some? {
      o := exp.UpdateResponsibilities(responsibilities.value, now);
      if o.Fail? {
        return Failure(Domain(o.error));
      }
    }
    var e := exp.Record();
    forall q | IndicesDistinct(old(repo.docs), q)
      ensures IndicesDistinct(old(repo.docs)[e.id := e], q)
    {
      ReplaceKeepsIndicesDistinct(old(repo.docs), e, q);
    }
    repo.Update(e);
    r := Success(e);
  }

  /**
   * AddEducationUseCase: an index the profile already uses is a
   * BusinessRuleViolation, checked before any validation; then
   * `Education.create` validates; only a valid education is added.
   */
  method AddEducation(repo: EducationRepository, profileId: Id, institution: string, degree: string, field: string,
                      startDate: Timestamp, orderIndex: int, description: Option<string>, endDate: Option<Timestamp>,
                      newId: Id, now: Timestamp) returns (r: Result<Educations.EducationRecord, AppError>)
    requires newId !in repo.docs
    modifies repo
    ensures var c := Educations.Construct(Educations.NewRecord(profileId, institution, degree, field, startDate,
                                                               orderIndex, description, endDate, newId, now));
            if IndexTaken(old(repo.docs), profileId, orderIndex) then
              r == Failure(BusinessRuleViolation(orderIndex)) && repo.docs == old(repo.docs)
            else if c.Failure? then
              r == Failure(Domain(c.error)) && repo.docs == old(repo.docs)
            else
              r == Success(c.value) && repo.docs == old(repo.docs)[newId := c.value]
    ensures forall q :: IndicesDistinct(old(repo.docs), q) ==> IndicesDistinct(repo.docs, q)
    ensures old(repo.Valid()) ==> repo.Valid()
  {
    var existing := repo.GetByOrderIndex(profileId, orderIndex);
    if existing.Some? {
      return Failure(BusinessRuleViolation(orderIndex));
    }
    var created := Educations.Education.Create(profileId, institution, degree, field, startDate, orderIndex,
                                               description, endDate, newId, now);
    if created.Failure? {
      return Failure(Domain(created.error));
    }
    var e := created.value.Record();
    var inserted := repo.Add(e);
    forall q | IndicesDistinct(old(repo.docs), q)
      ensures IndicesDistinct(repo.docs, q)
    {
      InsertKeepsIndicesDistinct(old(repo.docs), e, q);
    }
    r := Success(e);
  }

  /**
   * EditEducationUseCase: an unknown id is NotFound; otherwise
   * `update_info` runs and the education is persisted only when it did
   * not raise.
   */
  method EditEducation(repo: EducationRepository, educationId: Id, institution: Option<string>, degree: Option<string>,
                       field: Option<string>, description: Option<string>, startDate: Option<Timestamp>,
                       endDate: Option<Timestamp>, now: Timestamp) returns (r: Result<Educations.EducationRecord, AppError>)
    requires repo.Valid()
    modifies repo
    ensures educationId !in old(repo.docs) ==>
              r == Failure(NotFound("Education", educationId)) && repo.docs == old(repo.docs)
    ensures educationId in old(repo.docs) ==>
              var s := Educations.InfoUpdated(old(repo.docs)[educationId], institution, degree, field, description,
                                              startDate, endDate, now);
              if s.outcome.Fail? then r == Failure(Domain(s.outcome.error)) && repo.docs == old(repo.docs)
              else r == Success(s.state) && repo.docs == old(repo.docs)[educationId := s.state]
    ensures forall q :: IndicesDistinct(old(repo.docs), q) ==> IndicesDistinct(repo.docs, q)
    ensures repo.Valid()
  {
    var found := repo.GetById(educationId);
    if found.None? {
      return Failure(NotFound("Education", educationId));
    }
    var edu := new Educations.Education.Init(found.value);
    var o := edu.UpdateInfo(institution, degree, field, description, startDate, endDate, now);
    if o.Fail? {
      return Failure(Domain(o.error));
    }
    var e := edu.Record();
    forall q | IndicesDistinct(old(repo.docs), q)
      ensures IndicesDistinct(old(repo.docs)[e.id := e], q)
    {
      ReplaceKeepsIndicesDistinct(old(repo.docs), e, q);
    }
    repo.Update(e);
    r := Success(e);
  }

  // ---------------------------------------------------------------------
  // Profile

  /**
   * CreateProfileUseCase: a second profile is a Duplicate; then
   * `Profile.create` validates; only a valid profile is added, so the
   * store never holds more than one profile.
   */
  method CreateProfile(repo: ProfileRepository, name: string, headline: string, bio: Option<string>,
                       location: Option<string>, avatarUrl: Option<string>, newId: Id, now: Timestamp)
    returns (r: Result<Profiles.ProfileRecord, AppError>)
    modifies repo
    ensures var c := Profiles.Construct(Profiles.NewRecord(name, headline, bio, location, avatarUrl, newId, now));
            if old(repo.profiles) != map[] then
              r == Failure(Duplicate("Profile", "single", "A profile already exists. Only one profile is allowed."))
              && repo.profiles == old(repo.profiles)
            else if c.Failure? then
              r == Failure(Domain(c.error)) && repo.profiles == old(repo.profiles)
            else
              r == Success(c.value) && repo.profiles == map[newId := c.value]
    ensures |old(repo.profiles)| <= 1 ==> |repo.profiles| <= 1
    ensures old(repo.Valid()) ==> repo.Valid()
  {
    var exists_ := repo.ProfileExists();
    if exists_ {
      return Failure(Duplicate("Profile", "single", "A profile already exists. Only one profile is allowed."));
    }
    var created := Profiles.Profile.Create(name, headline, bio, location, avatarUrl, newId, now);
    if created.Failure? {
      return Failure(Domain(created.error));
    }
    var e := created.value.Record();
    var inserted := repo.Add(e);
    assert repo.profiles == map[newId := e];
    r := Success(e);
  }

  /** UpdateProfileUseCase on the record: `update_basic_info`, then `update_avatar` when an avatar is given. */
  function ProfileUpdated(r: Profiles.ProfileRecord, name: Option<string>, headline: Option<string>, bio: Option<string>,
                          location: Option<string>, avatarUrl: Option<string>, now: Timestamp): Step<Profiles.ProfileRecord>
  {
    var s := Profiles.BasicInfoUpdated(r, name, headline, bio, location, now);
    if s.outcome.Fail? || avatarUrl.None? then s
    else Profiles.AvatarUpdated(s.state, avatarUrl, now)
  }

  /**
   * A successful update keeps a valid profile valid and its id and
   * creation time; an avatar given as a blank string clears the avatar.
   */
  lemma ProfileUpdateKeepsValid(r: Profiles.ProfileRecord, name: Option<string>, headline: Option<string>,
                                bio: Option<string>, location: Option<string>, avatarUrl: Option<string>, now: Timestamp)
    requires Profiles.ValidProfile(r)
    requires ProfileUpdated(r, name, headline, bio, location, avatarUrl, now).outcome.Pass?
    ensures var t := ProfileUpdated(r, name, headline, bio, location, avatarUrl, now).state;
            Profiles.ValidProfile(t) && t.id == r.id && t.createdAt == r.createdAt
            && (avatarUrl.Some? && IsBlank(avatarUrl.value) ==> t.body.avatarUrl.None?)
  {
    Profiles.BasicInfoUpdatePreservesValid(r, name, headline, bio, location, now);
  }

  /**
   * UpdateProfileUseCase: no stored profile is NotFound; otherwise the
   * update runs on the stored profile and is persisted only when nothing raised.
   */
  method UpdateProfile(repo: ProfileRepository, name: Option<string>, headline: Option<string>, bio: Option<string>,
                       location: Option<string>, avatarUrl: Option<string>, now: Timestamp)
    returns (r: Result<Profiles.ProfileRecord, AppError>, ghost current: Option<Profiles.ProfileRecord>)
    requires repo.Valid()
    modifies repo
    ensures current.None? <==> old(repo.profiles) == map[]
    ensures current.None? ==> r == Failure(NotFound("Profile", "single")) && repo.profiles == old(repo.profiles)
    ensures current.Some? ==>
              current.value in old(repo.profiles).Values
              && var s := ProfileUpdated(current.value, name, headline, bio, location, avatarUrl, now);
                 if s.outcome.Fail? then r == Failure(Domain(s.outcome.error)) && repo.profiles == old(repo.profiles)
                 else r == Success(s.state) && repo.profiles == old(repo.profiles)[current.value.id := s.state]
    ensures repo.Valid() && repo.profiles.Keys == old(repo.profiles).Keys
  {
    var found := repo.GetProfile();
    current := found;
    if found.None? {
      return Failure(NotFound("Profile", "single")), current;
    }
    var cur := found.value;
    var profile := new Profiles.Profile.Init(cur);
    var o := profile.UpdateBasicInfo(name, headline, bio, location, now);
    if o.Fail? {
      return Failure(Domain(o.error)), current;
    }
    if avatarUrl.Some? {
      o := profile.UpdateAvatar(avatarUrl, now);
      if o.Fail? {
        return Failure(Domain(o.error)), current;
      }
    }
    var e := profile.Record();
    assert e == ProfileUpdated(cur, name, headline, bio, location, avatarUrl, now).state;
    repo.Update(e);
    r := Success(e);
  }

  // ---------------------------------------------------------------------
  // The complete CV

  datatype CV = CV(profile: Profiles.ProfileRecord,
                   experiences: seq<WorkExperiences.ExperienceRecord>,
                   skills: seq<Skills.SkillRecord>,
                   education: seq<Educations.EducationRecord>)

  /**
   * GetCompleteCVUseCase: without a profile, NotFound; otherwise the
   * profile with its experiences and education by descending
   * `order_index` (the first 100 of each) and its skills by ascending
   * `order_index`.
   */
  method GetCompleteCV(profiles: ProfileRepository, experiences: ExperienceRepository, skills: SkillRepository,
                       education: EducationRepository) returns (r: Result<CV, AppError>)
    requires experiences.Valid() && skills.Valid() && education.Valid()
    ensures r.Failure? <==> profiles.profiles == map[]
    ensures r.Failure? ==> r.error == NotFound("Profile", "single")
    ensures r.Success? ==>
              var cv := r.value;
              var p := cv.profile.id;
              cv.profile in profiles.profiles.Values
              && FirstInOrder(cv.experiences, experiences.docs, OfProfile(experiences.docs, p), false)
              && FoundIn(cv.skills, skills.docs, OfProfile(skills.docs, p))
              && SortedBy(cv.skills, IndexKey, true)
              && FirstInOrder(cv.education, education.docs, OfProfile(education.docs, p), false)
  {
    var profile := profiles.GetProfile();
    if profile.None? {
      return Failure(NotFound("Profile", "single"));
    }
    var p := profile.value.id;
    var exps := experiences.GetAllOrdered(p, false);
    var found := skills.FindByProfile(p);
    var sorted := SortBy(found, IndexKey, true);
    FoundInPermuted(found, sorted, skills.docs, OfProfile(skills.docs, p));
    var edus := education.GetAllOrdered(p, false);
    r := Success(CV(profile.value, exps, sorted, edus));
  }
}
