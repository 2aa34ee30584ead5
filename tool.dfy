/**
 * The Tool entity (app/domain/entities/tool.py): a technology the owner
 * uses, with its category and an optional icon URL.
 */
module Tools {
  import opened Common
  import opened Patterns

  const MaxNameLength: nat := 50
  const MaxCategoryLength: nat := 50

  datatype ToolFields = ToolFields(name: string, category: string, iconUrl: Option<string>)

  type ToolRecord = Entry<ToolFields>

  predicate FieldsOk(f: ToolFields) {
    RequiredTextOk(f.name, MaxNameLength)
    && RequiredTextOk(f.category, MaxCategoryLength)
    && UrlOk(f.iconUrl)
  }

  /** The invariant every constructed Tool satisfies. */
  predicate ValidTool(r: ToolRecord) {
    PlacementOk(r) && FieldsOk(r.body)
  }

  function CheckName(s: string): Outcome {
    CheckRequiredText(s, InvalidName, "name", MaxNameLength)
  }

  function CheckCategory(s: string): Outcome {
    CheckRequiredText(s, InvalidCategory, "category", MaxCategoryLength)
  }

  function Normalized(r: ToolRecord): ToolRecord {
    r.(body := r.body.(iconUrl := BlankToNone(r.body.iconUrl)))
  }

  /** `__post_init__`: profile_id, name, category, icon URL and order_index, in that order. */
  function Construct(r: ToolRecord): (res: Result<ToolRecord, DomainError>)
    ensures res.Success? <==> ValidTool(Normalized(r))
    ensures res.Success? ==> res.value == Normalized(r)
    ensures ValidTool(r) ==> res == Success(r)
  {
    var normalized := Normalized(r);
    :- CheckProfileId(r.profileId);
    :- CheckName(r.body.name);
    :- CheckCategory(r.body.category);
    :- CheckCoercedUrl(r.body.iconUrl);
    :- CheckOrderIndex(r.orderIndex);
    Success(normalized)
  }

  /** A blank name raises InvalidNameError, then a blank category InvalidCategoryError. */
  lemma ConstructChecksInOrder(r: ToolRecord)
    ensures !IsBlank(r.profileId) && IsBlank(r.body.name) ==> Construct(r) == Failure(InvalidName)
    ensures !IsBlank(r.profileId) && RequiredTextOk(r.body.name, MaxNameLength) && IsBlank(r.body.category)
            ==> Construct(r) == Failure(InvalidCategory)
    ensures !IsBlank(r.profileId) && RequiredTextOk(r.body.name, MaxNameLength) && !IsBlank(r.body.category)
            && |r.body.category| > MaxCategoryLength
            ==> Construct(r) == Failure(InvalidLength("category", AtMost(MaxCategoryLength)))
  {
  }

  /** The record `Tool.create` builds. */
  function NewRecord(profileId: Id, name: string, category: string, orderIndex: int, iconUrl: Option<string>,
                     newId: Id, now: Timestamp): ToolRecord
  {
    Entry(newId, profileId, orderIndex, ToolFields(name, category, iconUrl), now, now)
  }

  /**
   * `update_info` on the fields: name, category and icon URL are assigned
   * and checked one after the other; a blank icon URL is stored as None.
   */
  function InfoApplied(f: ToolFields, name: Option<string>, category: Option<string>,
                       iconUrl: Option<string>): Step<ToolFields>
  {
    if name.Some? && CheckName(name.value).Fail? then
      Step(f.(name := name.value), CheckName(name.value))
    else
      var f1 := f.(name := Pick(name, f.name));
      if category.Some? && CheckCategory(category.value).Fail? then
        Step(f1.(category := category.value), CheckCategory(category.value))
      else
        var f2 := f1.(category := Pick(category, f1.category));
        if iconUrl.Some? then Step(f2.(iconUrl := BlankToNone(iconUrl)), CheckCoercedUrl(iconUrl))
        else Step(f2, Pass)
  }

  function InfoUpdated(r: ToolRecord, name: Option<string>, category: Option<string>,
                       iconUrl: Option<string>, now: Timestamp): Step<ToolRecord>
  {
    Touched(r, InfoApplied(r.body, name, category, iconUrl), now)
  }

  /**
   * `update_info` succeeds exactly when every given argument is
   * acceptable, and then exactly the given fields have changed.
   */
  lemma InfoAppliedMeaning(f: ToolFields, name: Option<string>, category: Option<string>, iconUrl: Option<string>)
    ensures var s := InfoApplied(f, name, category, iconUrl);
            (s.outcome.Pass? <==> (name.None? || RequiredTextOk(name.value, MaxNameLength))
                                  && (category.None? || RequiredTextOk(category.value, MaxCategoryLength))
                                  && (iconUrl.None? || UrlOk(BlankToNone(iconUrl))))
            && (s.outcome.Pass? ==> s.state == ToolFields(Pick(name, f.name), Pick(category, f.category),
                                                          if iconUrl.Some? then BlankToNone(iconUrl) else f.iconUrl))
  {
  }

  /** A successful `update_info` keeps a valid tool valid. */
  lemma InfoUpdatePreservesValid(r: ToolRecord, name: Option<string>, category: Option<string>,
                                 iconUrl: Option<string>, now: Timestamp)
    requires ValidTool(r)
    requires InfoUpdated(r, name, category, iconUrl, now).outcome.Pass?
    ensures ValidTool(InfoUpdated(r, name, category, iconUrl, now).state)
  {
    InfoAppliedMeaning(r.body, name, category, iconUrl);
  }

  /** `remove_icon`: the icon URL becomes None and only `updated_at` changes besides; it never fails. */
  function IconRemoved(r: ToolRecord, now: Timestamp): (t: ToolRecord)
    ensures t.body.iconUrl.None?
    ensures t.(body := t.body.(iconUrl := r.body.iconUrl), updatedAt := r.updatedAt) == r
    ensures t.updatedAt == now
    ensures ValidTool(r) ==> ValidTool(t)
  {
    r.(body := r.body.(iconUrl := None), updatedAt := now)
  }

  /** Removing the icon twice is the same as removing it once, up to the timestamp. */
  lemma RemoveIconIdempotent(r: ToolRecord, t1: Timestamp, t2: Timestamp)
    ensures IconRemoved(IconRemoved(r, t1), t2) == IconRemoved(r, t2)
  {
  }

  // ---------------------------------------------------------------------
  // The entity object

  class Tool {
    var id: Id
    var profileId: Id
    var name: string
    var category: string
    var orderIndex: int
    var iconUrl: Option<string>
    var createdAt: Timestamp
    var updatedAt: Timestamp

    function Record(): ToolRecord
      reads this
    {
      Entry(id, profileId, orderIndex, ToolFields(name, category, iconUrl), createdAt, updatedAt)
    }

    predicate Valid()
      reads this
    {
      ValidTool(Record())
    }

    constructor Init(r: ToolRecord)
      ensures Record() == r
    {
      id, profileId, orderIndex := r.id, r.profileId, r.orderIndex;
      name, category, iconUrl := r.body.name, r.body.category, r.body.iconUrl;
      createdAt, updatedAt := r.createdAt, r.updatedAt;
    }

    static method Build(r: ToolRecord) returns (res: Result<Tool, DomainError>)
      ensures res.Success? <==> Construct(r).Success?
      ensures res.Success? ==> fresh(res.value) && res.value.Record() == Construct(r).value && res.value.Valid()
      ensures res.Failure? ==> res.error == Construct(r).error
    {
      var c := Construct(r);
      if c.Failure? {
        return Failure(c.error);
      }
      var t := new Tool.Init(c.value);
      return Success(t);
    }

    static method Create(profileId: Id, name: string, category: string, orderIndex: int, iconUrl: Option<string>,
                         newId: Id, now: Timestamp) returns (res: Result<Tool, DomainError>)
      ensures var r := NewRecord(profileId, name, category, orderIndex, iconUrl, newId, now);
              (res.Success? <==> Construct(r).Success?)
              && (res.Success? ==> fresh(res.value) && res.value.Record() == Construct(r).value && res.value.Valid())
              && (res.Failure? ==> res.error == Construct(r).error)
    {
      res := Build(NewRecord(profileId, name, category, orderIndex, iconUrl, newId, now));
    }

    method UpdateInfo(newName: Option<string>, newCategory: Option<string>, newIcon: Option<string>,
                      now: Timestamp) returns (o: Outcome)
      modifies this
      ensures Record() == InfoUpdated(old(Record()), newName, newCategory, newIcon, now).state
      ensures o == InfoUpdated(old(Record()), newName, newCategory, newIcon, now).outcome
    {
      o := Pass;
      if newName.Some? {
        name := newName.value;
        o := CheckName(name);
        if o.Fail? { return; }
      }
      if newCategory.Some? {
        category := newCategory.value;
        o := CheckCategory(category);
        if o.Fail? { return; }
      }
      if newIcon.Some? {
        o := CheckCoercedUrl(newIcon);
        iconUrl := BlankToNone(newIcon);
        if o.Fail? { return; }
      }
      updatedAt := now;
    }

    method UpdateOrder(newIndex: int, now: Timestamp) returns (o: Outcome)
      modifies this
      ensures Record() == Reindexed(old(Record()), newIndex, now).state
      ensures o == Reindexed(old(Record()), newIndex, now).outcome
    {
      orderIndex := newIndex;
      o := CheckOrderIndex(orderIndex);
      if o.Fail? { return; }
      updatedAt := now;
    }

    method RemoveIcon(now: Timestamp)
      modifies this
      ensures Record() == IconRemoved(old(Record()), now)
    {
      iconUrl := None;
      updatedAt := now;
    }
  }
}
