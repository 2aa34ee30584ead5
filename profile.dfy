/**
 * The Profile entity (app/domain/entities/profile.py): the portfolio
 * owner's name, headline, optional bio, location and avatar URL. It is not
 * owned by another entity and has no position, so its record is not an
 * `Entry`.
 */
module Profiles {
  import opened Common
  import opened Patterns

  const MaxNameLength: nat := 100
  const MaxHeadlineLength: nat := 100
  const MaxBioLength: nat := 1000
  const MaxLocationLength: nat := 100

  datatype ProfileFields = ProfileFields(
    name: string,
    headline: string,
    bio: Option<string>,
    location: Option<string>,
    avatarUrl: Option<string>)

  datatype ProfileRecord = ProfileRecord(id: Id, body: ProfileFields, createdAt: Timestamp, updatedAt: Timestamp)

  /** The invariant every constructed Profile satisfies. */
  predicate FieldsOk(f: ProfileFields) {
    RequiredTextOk(f.name, MaxNameLength)
    && RequiredTextOk(f.headline, MaxHeadlineLength)
    && OptionalTextOk(f.bio, MaxBioLength)
    && OptionalTextOk(f.location, MaxLocationLength)
    && UrlOk(f.avatarUrl)
  }

  predicate ValidProfile(r: ProfileRecord) {
    FieldsOk(r.body)
  }

  function CheckName(s: string): Outcome {
    CheckRequiredText(s, EmptyField("name"), "name", MaxNameLength)
  }

  function CheckHeadline(s: string): Outcome {
    CheckRequiredText(s, EmptyField("headline"), "headline", MaxHeadlineLength)
  }

  function CheckBio(b: Option<string>): Outcome {
    CheckCoercedText(b, "bio", MaxBioLength)
  }

  function CheckLocation(l: Option<string>): Outcome {
    CheckCoercedText(l, "location", MaxLocationLength)
  }

  function Normalized(r: ProfileRecord): ProfileRecord {
    r.(body := r.body.(bio := BlankToNone(r.body.bio), location := BlankToNone(r.body.location),
                       avatarUrl := BlankToNone(r.body.avatarUrl)))
  }

  /** `__post_init__`: name, headline, bio, location and avatar URL, in that order. */
  function Construct(r: ProfileRecord): (res: Result<ProfileRecord, DomainError>)
    ensures res.Success? <==> ValidProfile(Normalized(r))
    ensures res.Success? ==> res.value == Normalized(r)
    ensures ValidProfile(r) ==> res == Success(r)
  {
    var normalized := Normalized(r);
    :- CheckName(r.body.name);
    :- CheckHeadline(r.body.headline);
    :- CheckBio(r.body.bio);
    :- CheckLocation(r.body.location);
    :- CheckCoercedUrl(r.body.avatarUrl);
    Success(normalized)
  }

  /** A blank name is reported first, then a blank headline, then an overlong bio. */
  lemma ConstructChecksInOrder(r: ProfileRecord)
    ensures IsBlank(r.body.name) ==> Construct(r) == Failure(EmptyField("name"))
    ensures RequiredTextOk(r.body.name, MaxNameLength) && IsBlank(r.body.headline)
            ==> Construct(r) == Failure(EmptyField("headline"))
    ensures RequiredTextOk(r.body.name, MaxNameLength) && RequiredTextOk(r.body.headline, MaxHeadlineLength)
            && r.body.bio.Some? && |r.body.bio.value| > MaxBioLength && !IsBlank(r.body.bio.value)
            ==> Construct(r) == Failure(InvalidLength("bio", AtMost(MaxBioLength)))
  {
  }

  /** A profile whose avatar URL does not match URL_PATTERN, such as "not-a-url", is refused. */
  lemma InvalidAvatarRefused(r: ProfileRecord)
    requires FieldsOk(r.body.(avatarUrl := None))
    requires r.body.avatarUrl == Some("not-a-url")
    ensures Construct(r) == Failure(InvalidUrl("not-a-url"))
  {
    UrlRefused();
    assert !IsBlank("not-a-url") by { assert !IsSpace("not-a-url"[0]); }
  }

  /** The record `Profile.create` builds. */
  function NewRecord(name: string, headline: string, bio: Option<string>, location: Option<string>,
                     avatarUrl: Option<string>, newId: Id, now: Timestamp): ProfileRecord
  {
    ProfileRecord(newId, ProfileFields(name, headline, bio, location, avatarUrl), now, now)
  }

  /** `_mark_as_updated` after a successful operation on the fields. */
  function Marked(r: ProfileRecord, s: Step<ProfileFields>, now: Timestamp): (t: Step<ProfileRecord>)
    ensures t.state.body == s.state && t.outcome == s.outcome
    ensures t.state.id == r.id && t.state.createdAt == r.createdAt
    ensures t.state.updatedAt == if s.outcome.Pass? then now else r.updatedAt
  {
    Step(r.(body := s.state, updatedAt := if s.outcome.Pass? then now else r.updatedAt), s.outcome)
  }

  // ---------------------------------------------------------------------
  // update_basic_info, stage by stage

  /**
   * `update_basic_info` on the fields: name, headline, bio and location
   * are assigned and checked one after the other; blank bio and location
   * are written back as None. The avatar is not an argument.
   */
  function BasicInfoApplied(f: ProfileFields, name: Option<string>, headline: Option<string>,
                            bio: Option<string>, location: Option<string>): Step<ProfileFields>
  {
    if name.Some? then
      var f1 := f.(name := name.value);
      var c := CheckName(name.value);
      if c.Fail? then Step(f1, c) else HeadlineApplied(f1, headline, bio, location)
    else HeadlineApplied(f, headline, bio, location)
  }

  function HeadlineApplied(f: ProfileFields, headline: Option<string>, bio: Option<string>,
                           location: Option<string>): Step<ProfileFields>
  {
    if headline.Some? then
      var f1 := f.(headline := headline.value);
      var c := CheckHeadline(headline.value);
      if c.Fail? then Step(f1, c) else BioApplied(f1, bio, location)
    else BioApplied(f, bio, location)
  }

  function BioApplied(f: ProfileFields, bio: Option<string>, location: Option<string>): Step<ProfileFields>
  {
    if bio.Some? then
      var f1 := f.(bio := BlankToNone(bio));
      var c := CheckBio(bio);
      if c.Fail? then Step(f1, c) else LocationApplied(f1, location)
    else LocationApplied(f, location)
  }

  function LocationApplied(f: ProfileFields, location: Option<string>): Step<ProfileFields>
  {
    if location.Some? then Step(f.(location := BlankToNone(location)), CheckLocation(location))
    else Step(f, Pass)
  }

  function BasicInfoUpdated(r: ProfileRecord, name: Option<string>, headline: Option<string>,
                            bio: Option<string>, location: Option<string>, now: Timestamp): Step<ProfileRecord>
  {
    Marked(r, BasicInfoApplied(r.body, name, headline, bio, location), now)
  }

  /** The fields once every given argument of `update_basic_info` is applied. */
  function BasicInfoTarget(f: ProfileFields, name: Option<string>, headline: Option<string>,
                           bio: Option<string>, location: Option<string>): ProfileFields
  {
    f.(name := Pick(name, f.name), headline := Pick(headline, f.headline),
       bio := if bio.Some? then BlankToNone(bio) else f.bio,
       location := if location.Some? then BlankToNone(location) else f.location)
  }

  predicate BasicInfoAcceptable(name: Option<string>, headline: Option<string>,
                                bio: Option<string>, location: Option<string>)
  {
    (name.None? || RequiredTextOk(name.value, MaxNameLength))
    && (headline.None? || RequiredTextOk(headline.value, MaxHeadlineLength))
    && (bio.None? || OptionalTextOk(BlankToNone(bio), MaxBioLength))
    && (location.None? || OptionalTextOk(BlankToNone(location), MaxLocationLength))
  }

  /**
   * `update_basic_info` succeeds exactly when every given argument is
   * acceptable; then exactly the given fields have changed and the avatar
   * URL is untouched.
   */
  lemma BasicInfoAppliedMeaning(f: ProfileFields, name: Option<string>, headline: Option<string>,
                                bio: Option<string>, location: Option<string>)
    ensures var s := BasicInfoApplied(f, name, headline, bio, location);
            (s.outcome.Pass? <==> BasicInfoAcceptable(name, headline, bio, location))
            && (s.outcome.Pass? ==> s.state == BasicInfoTarget(f, name, headline, bio, location))
            && s.state.avatarUrl == f.avatarUrl
  {
  }

  /** A successful `update_basic_info` keeps a valid profile valid. */
  lemma BasicInfoUpdatePreservesValid(r: ProfileRecord, name: Option<string>, headline: Option<string>,
                                      bio: Option<string>, location: Option<string>, now: Timestamp)
    requires ValidProfile(r)
    requires BasicInfoUpdated(r, name, headline, bio, location, now).outcome.Pass?
    ensures ValidProfile(BasicInfoUpdated(r, name, headline, bio, location, now).state)
  {
    BasicInfoAppliedMeaning(r.body, name, headline, bio, location);
  }

  /**
   * `update_avatar`: the new URL, None included, is assigned, coerced and
   * checked; None removes the avatar.
   */
  function AvatarUpdated(r: ProfileRecord, avatarUrl: Option<string>, now: Timestamp): (s: Step<ProfileRecord>)
    ensures s.state.body == r.body.(avatarUrl := BlankToNone(avatarUrl))
    ensures s.outcome.Pass? <==> UrlOk(BlankToNone(avatarUrl))
    ensures avatarUrl.None? ==> s == Step(r.(body := r.body.(avatarUrl := None), updatedAt := now), Pass)
    ensures ValidProfile(r) && s.outcome.Pass? ==> ValidProfile(s.state)
  {
    Marked(r, Step(r.body.(avatarUrl := BlankToNone(avatarUrl)), CheckCoercedUrl(avatarUrl)), now)
  }

  // ---------------------------------------------------------------------
  // The entity object

  class Profile {
    var id: Id
    var name: string
    var headline: string
    var bio: Option<string>
    var location: Option<string>
    var avatarUrl: Option<string>
    var createdAt: Timestamp
    var updatedAt: Timestamp

    function Record(): ProfileRecord
      reads this
    {
      ProfileRecord(id, ProfileFields(name, headline, bio, location, avatarUrl), createdAt, updatedAt)
    }

    predicate Valid()
      reads this
    {
      ValidProfile(Record())
    }

    constructor Init(r: ProfileRecord)
      ensures Record() == r
    {
      id, name, headline := r.id, r.body.name, r.body.headline;
      bio, location, avatarUrl := r.body.bio, r.body.location, r.body.avatarUrl;
      createdAt, updatedAt := r.createdAt, r.updatedAt;
    }

    static method Build(r: ProfileRecord) returns (res: Result<Profile, DomainError>)
      ensures res.Success? <==> Construct(r).Success?
      ensures res.Success? ==> fresh(res.value) && res.value.Record() == Construct(r).value && res.value.Valid()
      ensures res.Failure? ==> res.error == Construct(r).error
    {
      var c := Construct(r);
      if c.Failure? {
        return Failure(c.error);
      }
      var p := new Profile.Init(c.value);
      return Success(p);
    }

    static method Create(name: string, headline: string, bio: Option<string>, location: Option<string>,
                         avatarUrl: Option<string>, newId: Id, now: Timestamp) returns (res: Result<Profile, DomainError>)
      ensures var r := NewRecord(name, headline, bio, location, avatarUrl, newId, now);
              (res.Success? <==> Construct(r).Success?)
              && (res.Success? ==> fresh(res.value) && res.value.Record() == Construct(r).value && res.value.Valid())
              && (res.Failure? ==> res.error == Construct(r).error)
    {
      res := Build(NewRecord(name, headline, bio, location, avatarUrl, newId, now));
    }

    method UpdateBasicInfo(newName: Option<string>, newHeadline: Option<string>, newBio: Option<string>,
                           newLocation: Option<string>, now: Timestamp) returns (o: Outcome)
      modifies this
      ensures Record() == BasicInfoUpdated(old(Record()), newName, newHeadline, newBio, newLocation, now).state
      ensures o == BasicInfoUpdated(old(Record()), newName, newHeadline, newBio, newLocation, now).outcome
    {
      if newName.Some? {
        name := newName.value;
        o := CheckName(name);
        if o.Fail? { return; }
      }
      o := ApplyHeadline(newHeadline, newBio, newLocation);
      if o.Fail? { return; }
      updatedAt := now;
    }

    method ApplyHeadline(newHeadline: Option<string>, newBio: Option<string>, newLocation: Option<string>)
      returns (o: Outcome)
      modifies this
      ensures Record() == old(Record()).(body := HeadlineApplied(old(Record()).body, newHeadline, newBio, newLocation).state)
      ensures o == HeadlineApplied(old(Record()).body, newHeadline, newBio, newLocation).outcome
    {
      if newHeadline.Some? {
        headline := newHeadline.value;
        o := CheckHeadline(headline);
        if o.Fail? { return; }
      }
      o := ApplyBio(newBio, newLocation);
    }

    method ApplyBio(newBio: Option<string>, newLocation: Option<string>) returns (o: Outcome)
      modifies this
      ensures Record() == old(Record()).(body := BioApplied(old(Record()).body, newBio, newLocation).state)
      ensures o == BioApplied(old(Record()).body, newBio, newLocation).outcome
    {
      if newBio.Some? {
        o := CheckBio(newBio);
        bio := BlankToNone(newBio);
        if o.Fail? { return; }
      }
      o := Pass;
      if newLocation.Some? {
        o := CheckLocation(newLocation);
        location := BlankToNone(newLocation);
      }
    }

    method UpdateAvatar(newAvatar: Option<string>, now: Timestamp) returns (o: Outcome)
      modifies this
      ensures Record() == AvatarUpdated(old(Record()), newAvatar, now).state
      ensures o == AvatarUpdated(old(Record()), newAvatar, now).outcome
    {
      o := CheckCoercedUrl(newAvatar);
      avatarUrl := BlankToNone(newAvatar);
      if o.Fail? { return; }
      updatedAt := now;
    }
  }
}
