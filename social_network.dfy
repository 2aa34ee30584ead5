/**
 * The SocialNetwork entity (app/domain/entities/social_network.py): a
 * platform name, the required profile URL on it and an optional username.
 */
module SocialNetworks {
  import opened Common
  import opened Patterns

  const MaxPlatformLength: nat := 50
  const MaxUsernameLength: nat := 100

  datatype NetworkFields = NetworkFields(platform: string, url: string, username: Option<string>)

  type NetworkRecord = Entry<NetworkFields>

  /** A required URL: not blank and matching URL_PATTERN. */
  predicate RequiredUrlOk(u: string) {
    !IsBlank(u) && UrlPattern(u)
  }

  predicate FieldsOk(f: NetworkFields) {
    RequiredTextOk(f.platform, MaxPlatformLength)
    && RequiredUrlOk(f.url)
    && OptionalTextOk(f.username, MaxUsernameLength)
  }

  /** The invariant every constructed SocialNetwork satisfies. */
  predicate ValidNetwork(r: NetworkRecord) {
    PlacementOk(r) && FieldsOk(r.body)
  }

  function CheckPlatform(s: string): Outcome {
    CheckRequiredText(s, InvalidPlatform, "platform", MaxPlatformLength)
  }

  /** `_validate_url`: a blank URL is an empty field, a malformed one an invalid URL. */
  function CheckRequiredUrl(u: string): (o: Outcome)
    ensures o.Pass? <==> RequiredUrlOk(u)
    ensures IsBlank(u) ==> o == Fail(EmptyField("url"))
    ensures !IsBlank(u) && o.Fail? ==> o == Fail(InvalidUrl(u))
  {
    if IsBlank(u) then Fail(EmptyField("url"))
    else if !UrlPattern(u) then Fail(InvalidUrl(u))
    else Pass
  }

  function CheckUsername(u: Option<string>): Outcome {
    CheckCoercedText(u, "username", MaxUsernameLength)
  }

  function Normalized(r: NetworkRecord): NetworkRecord {
    r.(body := r.body.(username := BlankToNone(r.body.username)))
  }

  /** `__post_init__`: profile_id, platform, url, username and order_index, in that order. */
  function Construct(r: NetworkRecord): (res: Result<NetworkRecord, DomainError>)
    ensures res.Success? <==> ValidNetwork(Normalized(r))
    ensures res.Success? ==> res.value == Normalized(r)
    ensures ValidNetwork(r) ==> res == Success(r)
  {
    var normalized := Normalized(r);
    :- CheckProfileId(r.profileId);
    :- CheckPlatform(r.body.platform);
    :- CheckRequiredUrl(r.body.url);
    :- CheckUsername(r.body.username);
    :- CheckOrderIndex(r.orderIndex);
    Success(normalized)
  }

  /** A blank platform and a blank URL are reported with their own errors. */
  lemma ConstructChecksInOrder(r: NetworkRecord)
    ensures !IsBlank(r.profileId) && IsBlank(r.body.platform) ==> Construct(r) == Failure(InvalidPlatform)
    ensures !IsBlank(r.profileId) && RequiredTextOk(r.body.platform, MaxPlatformLength) && IsBlank(r.body.url)
            ==> Construct(r) == Failure(EmptyField("url"))
    ensures !IsBlank(r.profileId) && FieldsOk(r.body) && r.orderIndex < 0
            ==> Construct(r) == Failure(InvalidOrderIndex(r.orderIndex))
  {
  }

  /** The record `SocialNetwork.create` builds. */
  function NewRecord(profileId: Id, platform: string, url: string, orderIndex: int, username: Option<string>,
                     newId: Id, now: Timestamp): NetworkRecord
  {
    Entry(newId, profileId, orderIndex, NetworkFields(platform, url, username), now, now)
  }

  /**
   * `update_info` on the fields: platform, url and username are assigned
   * and checked one after the other; a blank username is stored as None.
   */
  function InfoApplied(f: NetworkFields, platform: Option<string>, url: Option<string>,
                       username: Option<string>): Step<NetworkFields>
  {
    if platform.Some? && CheckPlatform(platform.value).Fail? then
      Step(f.(platform := platform.value), CheckPlatform(platform.value))
    else
      var f1 := f.(platform := Pick(platform, f.platform));
      if url.Some? && CheckRequiredUrl(url.value).Fail? then
        Step(f1.(url := url.value), CheckRequiredUrl(url.value))
      else
        var f2 := f1.(url := Pick(url, f1.url));
        if username.Some? then Step(f2.(username := BlankToNone(username)), CheckUsername(username))
        else Step(f2, Pass)
  }

  function InfoUpdated(r: NetworkRecord, platform: Option<string>, url: Option<string>,
                       username: Option<string>, now: Timestamp): Step<NetworkRecord>
  {
    Touched(r, InfoApplied(r.body, platform, url, username), now)
  }

  /**
   * `update_info` succeeds exactly when every given argument is
   * acceptable, and then exactly the given fields have changed; None
   * arguments leave theirs as they were.
   */
  lemma InfoAppliedMeaning(f: NetworkFields, platform: Option<string>, url: Option<string>, username: Option<string>)
    ensures var s := InfoApplied(f, platform, url, username);
            (s.outcome.Pass? <==> (platform.None? || RequiredTextOk(platform.value, MaxPlatformLength))
                                  && (url.None? || RequiredUrlOk(url.value))
                                  && (username.None? || OptionalTextOk(BlankToNone(username), MaxUsernameLength)))
            && (s.outcome.Pass? ==> s.state == NetworkFields(Pick(platform, f.platform), Pick(url, f.url),
                                                             if username.Some? then BlankToNone(username) else f.username))
  {
  }

  /** A successful `update_info` keeps a valid social network valid. */
  lemma InfoUpdatePreservesValid(r: NetworkRecord, platform: Option<string>, url: Option<string>,
                                 username: Option<string>, now: Timestamp)
    requires ValidNetwork(r)
    requires InfoUpdated(r, platform, url, username, now).outcome.Pass?
    ensures ValidNetwork(InfoUpdated(r, platform, url, username, now).state)
  {
    InfoAppliedMeaning(r.body, platform, url, username);
  }

  /** A rejected URL has already replaced the old one when the error is raised. */
  lemma RejectedUrlStays(f: NetworkFields, url: string)
    requires !RequiredUrlOk(url)
    ensures InfoApplied(f, None, Some(url), None).state == f.(url := url)
    ensures !FieldsOk(InfoApplied(f, None, Some(url), None).state)
  {
  }

  // ---------------------------------------------------------------------
  // The entity object

  class SocialNetwork {
    var id: Id
    var profileId: Id
    var platform: string
    var url: string
    var orderIndex: int
    var username: Option<string>
    var createdAt: Timestamp
    var updatedAt: Timestamp

    function Record(): NetworkRecord
      reads this
    {
      Entry(id, profileId, orderIndex, NetworkFields(platform, url, username), createdAt, updatedAt)
    }

    predicate Valid()
      reads this
    {
      ValidNetwork(Record())
    }

    constructor Init(r: NetworkRecord)
      ensures Record() == r
    {
      id, profileId, orderIndex := r.id, r.profileId, r.orderIndex;
      platform, url, username := r.body.platform, r.body.url, r.body.username;
      createdAt, updatedAt := r.createdAt, r.updatedAt;
    }

    static method Build(r: NetworkRecord) returns (res: Result<SocialNetwork, DomainError>)
      ensures res.Success? <==> Construct(r).Success?
      ensures res.Success? ==> fresh(res.value) && res.value.Record() == Construct(r).value && res.value.Valid()
      ensures res.Failure? ==> res.error == Construct(r).error
    {
      var c := Construct(r);
      if c.Failure? {
        return Failure(c.error);
      }
      var n := new SocialNetwork.Init(c.value);
      return Success(n);
    }

    static method Create(profileId: Id, platform: string, url: string, orderIndex: int, username: Option<string>,
                         newId: Id, now: Timestamp) returns (res: Result<SocialNetwork, DomainError>)
      ensures var r := NewRecord(profileId, platform, url, orderIndex, username, newId, now);
              (res.Success? <==> Construct(r).Success?)
              && (res.Success? ==> fresh(res.value) && res.value.Record() == Construct(r).value && res.value.Valid())
              && (res.Failure? ==> res.error == Construct(r).error)
    {
      res := Build(NewRecord(profileId, platform, url, orderIndex, username, newId, now));
    }

    method UpdateInfo(newPlatform: Option<string>, newUrl: Option<string>, newUsername: Option<string>,
                      now: Timestamp) returns (o: Outcome)
      modifies this
      ensures Record() == InfoUpdated(old(Record()), newPlatform, newUrl, newUsername, now).state
      ensures o == InfoUpdated(old(Record()), newPlatform, newUrl, newUsername, now).outcome
    {
      o := Pass;
      if newPlatform.Some? {
        platform := newPlatform.value;
        o := CheckPlatform(platform);
        if o.Fail? { return; }
      }
      if newUrl.Some? {
        url := newUrl.value;
        o := CheckRequiredUrl(url);
        if o.Fail? { return; }
      }
      if newUsername.Some? {
        o := CheckUsername(newUsername);
        username := BlankToNone(newUsername);
        if o.Fail? { return; }
      }
      updatedAt := now;
    }

    method UpdateOrder(newIndex: int, now: Timestamp) returns (o: Outcome)
      modifies this
      ensures Record() == Reindexed(old(Record()), newIndex, now).state
      ensures o == Reindexed(old(Record()), newIndex, now).outcome
    {
      orderIndex := newIndex;
      o := CheckOrderIndex(orderIndex);
      if o.Fail? { return; }
      updatedAt := now;
    }
  }
}
