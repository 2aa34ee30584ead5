/**
 * The ContactInformation entity (app/domain/entities/contact_information.py):
 * the owner's email, optional phone and three optional links. The phone is
 * checked after removing separators but stored as given.
 */
module ContactInfos {
  import opened Common
  import opened Patterns

  datatype ContactFields = ContactFields(
    email: string,
    phone: Option<string>,
    linkedin: Option<string>,
    github: Option<string>,
    website: Option<string>)

  datatype ContactRecord = ContactRecord(id: Id, profileId: Id, body: ContactFields,
                                         createdAt: Timestamp, updatedAt: Timestamp)

  // ---------------------------------------------------------------------
  // Phone

  predicate IsSeparator(c: char) { c == ' ' || c == '-' || c == '(' || c == ')' }

  /** The chain of `replace` calls that removes spaces, '-', '(' and ')'. */
  function StripSeparators(s: string): (t: string)
    ensures |t| <= |s|
    ensures forall i :: 0 <= i < |t| ==> !IsSeparator(t[i])
  {
    if s == [] then []
    else if IsSeparator(s[0]) then StripSeparators(s[1..])
    else [s[0]] + StripSeparators(s[1..])
  }

  /** Removing separators distributes over concatenation. */
  lemma {:induction false} StripAppend(a: string, b: string)
    ensures StripSeparators(a + b) == StripSeparators(a) + StripSeparators(b)
    decreases |a|
  {
    if a == [] {
      assert a + b == b;
    } else {
      assert (a + b)[1..] == a[1..] + b;
      StripAppend(a[1..], b);
    }
  }

  /** Text without separators is left as it is. */
  lemma {:induction false} StripKeeps(s: string)
    requires forall i :: 0 <= i < |s| ==> !IsSeparator(s[i])
    ensures StripSeparators(s) == s
    decreases |s|
  {
    if s != [] {
      StripKeeps(s[1..]);
    }
  }

  /** A separator may be inserted anywhere without changing whether a phone is accepted. */
  lemma SeparatorIgnored(a: string, sep: char, b: string)
    requires IsSeparator(sep)
    ensures StripSeparators(a + [sep] + b) == StripSeparators(a + b)
  {
    StripAppend(a + [sep], b);
    StripAppend(a, [sep]);
    StripAppend(a, b);
    assert [sep][1..] == [];
  }

  /** An optional phone after coercion: absent, or E.164 once its separators are removed. */
  predicate PhoneOk(p: Option<string>) {
    p.None? || (!IsBlank(p.value) && E164Pattern(StripSeparators(p.value)))
  }

  /**
   * `_validate_phone`: blank becomes None; otherwise the separator-free
   * text must match PHONE_PATTERN, and the error carries the phone as given.
   */
  function CheckPhone(p: Option<string>): (o: Outcome)
    ensures o.Pass? <==> PhoneOk(BlankToNone(p))
    ensures o.Fail? ==> o == Fail(InvalidPhone(p.value))
  {
    if p.Some? && !IsBlank(p.value) && !E164Pattern(StripSeparators(p.value)) then Fail(InvalidPhone(p.value))
    else Pass
  }

  predicate FieldsOk(f: ContactFields) {
    EmailOk(f.email) && PhoneOk(f.phone) && UrlOk(f.linkedin) && UrlOk(f.github) && UrlOk(f.website)
  }

  /** The invariant every constructed ContactInformation satisfies. */
  predicate ValidContact(r: ContactRecord) {
    !IsBlank(r.profileId) && FieldsOk(r.body)
  }

  function Normalized(r: ContactRecord): ContactRecord {
    r.(body := r.body.(phone := BlankToNone(r.body.phone), linkedin := BlankToNone(r.body.linkedin),
                       github := BlankToNone(r.body.github), website := BlankToNone(r.body.website)))
  }

  /** `__post_init__`: profile_id, email, phone, linkedin, github and website, in that order. */
  function Construct(r: ContactRecord): (res: Result<ContactRecord, DomainError>)
    ensures res.Success? <==> ValidContact(Normalized(r))
    ensures res.Success? ==> res.value == Normalized(r)
    ensures ValidContact(r) ==> res == Success(r)
  {
    var normalized := Normalized(r);
    :- CheckProfileId(r.profileId);
    :- CheckEmail(r.body.email);
    :- CheckPhone(r.body.phone);
    :- CheckCoercedUrl(r.body.linkedin);
    :- CheckCoercedUrl(r.body.github);
    :- CheckCoercedUrl(r.body.website);
    Success(normalized)
  }

  /**
   * A phone written with separators is accepted exactly when its digits
   * are, and it is stored with its separators: construction never
   * rewrites a non-blank phone.
   */
  lemma PhoneKeptAsWritten(r: ContactRecord, a: string, sep: char, b: string)
    requires IsSeparator(sep) && r.body.phone == Some(a + [sep] + b) && !IsBlank(a + [sep] + b)
    requires Construct(r).Success?
    ensures Construct(r).value.body.phone == Some(a + [sep] + b)
    ensures E164Pattern(StripSeparators(a + b))
  {
    SeparatorIgnored(a, sep, b);
  }

  /** The record `ContactInformation.create` builds. */
  function NewRecord(profileId: Id, email: string, phone: Option<string>, linkedin: Option<string>,
                     github: Option<string>, website: Option<string>, newId: Id, now: Timestamp): ContactRecord
  {
    ContactRecord(newId, profileId, ContactFields(email, phone, linkedin, github, website), now, now)
  }

  /** `_mark_as_updated` after a successful operation on the fields. */
  function Marked(r: ContactRecord, s: Step<ContactFields>, now: Timestamp): (t: Step<ContactRecord>)
    ensures t.state.body == s.state && t.outcome == s.outcome
    ensures t.state.id == r.id && t.state.profileId == r.profileId && t.state.createdAt == r.createdAt
    ensures t.state.updatedAt == if s.outcome.Pass? then now else r.updatedAt
  {
    Step(r.(body := s.state, updatedAt := if s.outcome.Pass? then now else r.updatedAt), s.outcome)
  }

  // ---------------------------------------------------------------------
  // Updates

  /** `update_email`: the new email is assigned, then validated. */
  function EmailUpdated(r: ContactRecord, email: string, now: Timestamp): (s: Step<ContactRecord>)
    ensures s.state.body == r.body.(email := email)
    ensures s.outcome == CheckEmail(email)
    ensures ValidContact(r) && s.outcome.Pass? ==> ValidContact(s.state)
    ensures s.outcome.Fail? ==> !ValidContact(s.state)
  {
    Marked(r, Step(r.body.(email := email), CheckEmail(email)), now)
  }

  /** `update_phone`: None removes the phone; a blank one is stored as None. */
  function PhoneUpdated(r: ContactRecord, phone: Option<string>, now: Timestamp): (s: Step<ContactRecord>)
    ensures s.state.body == r.body.(phone := BlankToNone(phone))
    ensures s.outcome.Pass? <==> PhoneOk(BlankToNone(phone))
    ensures phone.None? ==> s == Step(r.(body := r.body.(phone := None), updatedAt := now), Pass)
    ensures ValidContact(r) && s.outcome.Pass? ==> ValidContact(s.state)
  {
    Marked(r, Step(r.body.(phone := BlankToNone(phone)), CheckPhone(phone)), now)
  }

  /**
   * `update_social_links` on the fields: each given link is assigned,
   * coerced and checked, linkedin first, then github, then website.
   */
  function LinksApplied(f: ContactFields, linkedin: Option<string>, github: Option<string>,
                        website: Option<string>): (s: Step<ContactFields>)
    ensures s.state.email == f.email && s.state.phone == f.phone
  {
    if linkedin.Some? then
      var f1 := f.(linkedin := BlankToNone(linkedin));
      var c := CheckCoercedUrl(linkedin);
      if c.Fail? then Step(f1, c) else GithubApplied(f1, github, website)
    else GithubApplied(f, github, website)
  }

  function GithubApplied(f: ContactFields, github: Option<string>, website: Option<string>): (s: Step<ContactFields>)
    ensures s.state.email == f.email && s.state.phone == f.phone && s.state.linkedin == f.linkedin
  {
    if github.Some? then
      var f1 := f.(github := BlankToNone(github));
      var c := CheckCoercedUrl(github);
      if c.Fail? then Step(f1, c) else WebsiteApplied(f1, website)
    else WebsiteApplied(f, website)
  }

  function WebsiteApplied(f: ContactFields, website: Option<string>): Step<ContactFields> {
    if website.Some? then Step(f.(website := BlankToNone(website)), CheckCoercedUrl(website))
    else Step(f, Pass)
  }

  function LinksUpdated(r: ContactRecord, linkedin: Option<string>, github: Option<string>,
                        website: Option<string>, now: Timestamp): Step<ContactRecord>
  {
    Marked(r, LinksApplied(r.body, linkedin, github, website), now)
  }

  /** A link given as None keeps its value; a given one is replaced by its coerced form. */
  function Coerced(update: Option<string>, current: Option<string>): Option<string> {
    if update.Some? then BlankToNone(update) else current
  }

  /**
   * `update_social_links` succeeds exactly when every given link is
   * acceptable, and then the three links are as given (after coercion),
   * None arguments leaving theirs unchanged.
   */
  lemma LinksAppliedMeaning(f: ContactFields, linkedin: Option<string>, github: Option<string>, website: Option<string>)
    ensures var s := LinksApplied(f, linkedin, github, website);
            (s.outcome.Pass? <==> (linkedin.None? || UrlOk(BlankToNone(linkedin)))
                                  && (github.None? || UrlOk(BlankToNone(github)))
                                  && (website.None? || UrlOk(BlankToNone(website))))
            && (s.outcome.Pass? ==> s.state == f.(linkedin := Coerced(linkedin, f.linkedin),
                                                   github := Coerced(github, f.github),
                                                   website := Coerced(website, f.website)))
  {
  }

  /** A successful `update_social_links` keeps valid contact information valid. */
  lemma LinksUpdatePreservesValid(r: ContactRecord, linkedin: Option<string>, github: Option<string>,
                                  website: Option<string>, now: Timestamp)
    requires ValidContact(r)
    requires LinksUpdated(r, linkedin, github, website, now).outcome.Pass?
    ensures ValidContact(LinksUpdated(r, linkedin, github, website, now).state)
  {
    LinksAppliedMeaning(r.body, linkedin, github, website);
  }

  // ---------------------------------------------------------------------
  // The entity object

  class ContactInformation {
    var id: Id
    var profileId: Id
    var email: string
    var phone: Option<string>
    var linkedin: Option<string>
    var github: Option<string>
    var website: Option<string>
    var createdAt: Timestamp
    var updatedAt: Timestamp

    function Record(): ContactRecord
      reads this
    {
      ContactRecord(id, profileId, ContactFields(email, phone, linkedin, github, website), createdAt, updatedAt)
    }

    predicate Valid()
      reads this
    {
      ValidContact(Record())
    }

    constructor Init(r: ContactRecord)
      ensures Record() == r
    {
      id, profileId, email, phone := r.id, r.profileId, r.body.email, r.body.phone;
      linkedin, github, website := r.body.linkedin, r.body.github, r.body.website;
      createdAt, updatedAt := r.createdAt, r.updatedAt;
    }

    static method Build(r: ContactRecord) returns (res: Result<ContactInformation, DomainError>)
      ensures res.Success? <==> Construct(r).Success?
      ensures res.Success? ==> fresh(res.value) && res.value.Record() == Construct(r).value && res.value.Valid()
      ensures res.Failure? ==> res.error == Construct(r).error
    {
      var c := Construct(r);
      if c.Failure? {
        return Failure(c.error);
      }
      var ci := new ContactInformation.Init(c.value);
      return Success(ci);
    }

    static method Create(profileId: Id, email: string, phone: Option<string>, linkedin: Option<string>,
                         github: Option<string>, website: Option<string>, newId: Id, now: Timestamp)
      returns (res: Result<ContactInformation, DomainError>)
      ensures var r := NewRecord(profileId, email, phone, linkedin, github, website, newId, now);
              (res.Success? <==> Construct(r).Success?)
              && (res.Success? ==> fresh(res.value) && res.value.Record() == Construct(r).value && res.value.Valid())
              && (res.Failure? ==> res.error == Construct(r).error)
    {
      res := Build(NewRecord(profileId, email, phone, linkedin, github, website, newId, now));
    }

    method UpdateEmail(newEmail: string, now: Timestamp) returns (o: Outcome)
      modifies this
      ensures Record() == EmailUpdated(old(Record()), newEmail, now).state
      ensures o == EmailUpdated(old(Record()), newEmail, now).outcome
    {
      email := newEmail;
      o := CheckEmail(email);
      if o.Fail? { return; }
      updatedAt := now;
    }

    method UpdatePhone(newPhone: Option<string>, now: Timestamp) returns (o: Outcome)
      modifies this
      ensures Record() == PhoneUpdated(old(Record()), newPhone, now).state
      ensures o == PhoneUpdated(old(Record()), newPhone, now).outcome
    {
      o := CheckPhone(newPhone);
      phone := BlankToNone(newPhone);
      if o.Fail? { return; }
      updatedAt := now;
    }

    method UpdateSocialLinks(newLinkedin: Option<string>, newGithub: Option<string>, newWebsite: Option<string>,
                             now: Timestamp) returns (o: Outcome)
      modifies this
      ensures Record() == LinksUpdated(old(Record()), newLinkedin, newGithub, newWebsite, now).state
      ensures o == LinksUpdated(old(Record()), newLinkedin, newGithub, newWebsite, now).outcome
    {
      o := Pass;
      if newLinkedin.Some? {
        o := CheckCoercedUrl(newLinkedin);
        linkedin := BlankToNone(newLinkedin);
        if o.Fail? { return; }
      }
      if newGithub.Some? {
        o := CheckCoercedUrl(newGithub);
        github := BlankToNone(newGithub);
        if o.Fail? { return; }
      }
      if newWebsite.Some? {
        o := CheckCoercedUrl(newWebsite);
        website := BlankToNone(newWebsite);
        if o.Fail? { return; }
      }
      updatedAt := now;
    }
  }
}
