/**
 * The Skill entity. Its own source file is not part of this model; what is
 * modelled here is what the skill use cases call and what
 * tests/unit/domain/entities/test_skill.py and
 * tests/unit/domain/value_objects/test_skill_level.py pin down: a name of
 * at most 50 characters, a non-blank category, an optional level drawn
 * from the four SkillLevel values, and a position in the profile's list.
 */
module Skills {
  import opened Common

  const MaxNameLength: nat := 50

  /** The four values `SkillLevel.create` accepts, lowest first. */
  const Levels: seq<string> := ["basic", "intermediate", "advanced", "expert"]

  predicate KnownLevel(l: string) {
    l in Levels
  }

  datatype SkillFields = SkillFields(name: string, category: string, level: Option<string>)

  type SkillRecord = Entry<SkillFields>

  predicate LevelOk(l: Option<string>) {
    l.None? || KnownLevel(l.value)
  }

  predicate FieldsOk(f: SkillFields) {
    RequiredTextOk(f.name, MaxNameLength) && !IsBlank(f.category) && LevelOk(f.level)
  }

  /** The invariant every constructed Skill satisfies. */
  predicate ValidSkill(r: SkillRecord) {
    PlacementOk(r) && FieldsOk(r.body)
  }

  function CheckName(s: string): Outcome {
    CheckRequiredText(s, InvalidName, "name", MaxNameLength)
  }

  function CheckCategory(s: string): (o: Outcome)
    ensures o.Pass? <==> !IsBlank(s)
  {
    if IsBlank(s) then Fail(InvalidCategory) else Pass
  }

  /** `SkillLevel.create`: anything but the four levels raises InvalidSkillLevelError. */
  function CheckLevel(l: Option<string>): (o: Outcome)
    ensures o.Pass? <==> LevelOk(l)
    ensures o.Fail? ==> o == Fail(InvalidSkillLevel(l.value))
  {
    if l.Some? && !KnownLevel(l.value) then Fail(InvalidSkillLevel(l.value)) else Pass
  }

  /** Construction: profile_id, name, category, level and order_index; nothing is coerced. */
  function Construct(r: SkillRecord): (res: Result<SkillRecord, DomainError>)
    ensures res.Success? <==> ValidSkill(r)
    ensures res.Success? ==> res.value == r
  {
    var fields := r.body;
    :- CheckProfileId(r.profileId);
    :- CheckName(fields.name);
    :- CheckCategory(fields.category);
    :- CheckLevel(fields.level);
    :- CheckOrderIndex(r.orderIndex);
    Success(r)
  }

  /**
   * A 51-character name raises InvalidLengthError, and a level such as
   * "master", "beginner" or "" raises InvalidSkillLevelError, once the
   * fields before them are fine.
   */
  lemma LongNameAndUnknownLevelRefused(r: SkillRecord)
    requires !IsBlank(r.profileId)
    ensures |r.body.name| == MaxNameLength + 1 && !IsBlank(r.body.name)
            ==> Construct(r) == Failure(InvalidLength("name", AtMost(MaxNameLength)))
    ensures RequiredTextOk(r.body.name, MaxNameLength) && !IsBlank(r.body.category)
            && r.body.level.Some? && !KnownLevel(r.body.level.value)
            ==> Construct(r) == Failure(InvalidSkillLevel(r.body.level.value))
  {
  }

  /** "master" and the empty string are not levels; the four listed ones are. */
  lemma LevelExamples()
    ensures !KnownLevel("master") && !KnownLevel("")
    ensures KnownLevel("basic") && KnownLevel("expert")
  {
    assert Levels[0] == "basic" && Levels[3] == "expert";
    assert forall i :: 0 <= i < |Levels| ==> Levels[i] != "master" && Levels[i] != "";
  }

  /** The record `Skill.create` builds. */
  function NewRecord(profileId: Id, name: string, category: string, orderIndex: int, level: Option<string>,
                     newId: Id, now: Timestamp): SkillRecord
  {
    Entry(newId, profileId, orderIndex, SkillFields(name, category, level), now, now)
  }

  /** `update_info(name, category, level)`: each given field is assigned, then checked. */
  function InfoApplied(f: SkillFields, name: Option<string>, category: Option<string>,
                       level: Option<string>): Step<SkillFields>
  {
    if name.Some? && CheckName(name.value).Fail? then
      Step(f.(name := name.value), CheckName(name.value))
    else
      var f1 := f.(name := Pick(name, f.name));
      if category.Some? && CheckCategory(category.value).Fail? then
        Step(f1.(category := category.value), CheckCategory(category.value))
      else
        var f2 := f1.(category := Pick(category, f1.category));
        if level.Some? then Step(f2.(level := level), CheckLevel(level))
        else Step(f2, Pass)
  }

  function InfoUpdated(r: SkillRecord, name: Option<string>, category: Option<string>,
                       level: Option<string>, now: Timestamp): Step<SkillRecord>
  {
    Touched(r, InfoApplied(r.body, name, category, level), now)
  }

  /**
   * `update_info` succeeds exactly when every given argument is
   * acceptable, and then exactly the given fields have changed.
   */
  lemma InfoAppliedMeaning(f: SkillFields, name: Option<string>, category: Option<string>, level: Option<string>)
    ensures var s := InfoApplied(f, name, category, level);
            (s.outcome.Pass? <==> (name.None? || RequiredTextOk(name.value, MaxNameLength))
                                  && (category.None? || !IsBlank(category.value))
                                  && LevelOk(level))
            && (s.outcome.Pass? ==> s.state == SkillFields(Pick(name, f.name), Pick(category, f.category),
                                                           PickOpt(level, f.level)))
  {
  }

  /** A successful `update_info` keeps a valid skill valid. */
  lemma InfoUpdatePreservesValid(r: SkillRecord, name: Option<string>, category: Option<string>,
                                 level: Option<string>, now: Timestamp)
    requires ValidSkill(r)
    requires InfoUpdated(r, name, category, level, now).outcome.Pass?
    ensures ValidSkill(InfoUpdated(r, name, category, level, now).state)
  {
    InfoAppliedMeaning(r.body, name, category, level);
  }

  // ---------------------------------------------------------------------
  // The entity object

  class Skill {
    var id: Id
    var profileId: Id
    var name: string
    var category: string
    var orderIndex: int
    var level: Option<string>
    var createdAt: Timestamp
    var updatedAt: Timestamp

    function Record(): SkillRecord
      reads this
    {
      Entry(id, profileId, orderIndex, SkillFields(name, category, level), createdAt, updatedAt)
    }

    predicate Valid()
      reads this
    {
      ValidSkill(Record())
    }

    constructor Init(r: SkillRecord)
      ensures Record() == r
    {
      id, profileId, orderIndex := r.id, r.profileId, r.orderIndex;
      name, category, level := r.body.name, r.body.category, r.body.level;
      createdAt, updatedAt := r.createdAt, r.updatedAt;
    }

    static method Build(r: SkillRecord) returns (res: Result<Skill, DomainError>)
      ensures res.Success? <==> ValidSkill(r)
      ensures res.Success? ==> fresh(res.value) && res.value.Record() == r && res.value.Valid()
      ensures res.Failure? ==> res.error == Construct(r).error
    {
      var c := Construct(r);
      if c.Failure? {
        return Failure(c.error);
      }
      var s := new Skill.Init(c.value);
      return Success(s);
    }

    static method Create(profileId: Id, name: string, category: string, orderIndex: int, level: Option<string>,
                         newId: Id, now: Timestamp) returns (res: Result<Skill, DomainError>)
      ensures var r := NewRecord(profileId, name, category, orderIndex, level, newId, now);
              (res.Success? <==> ValidSkill(r))
              && (res.Success? ==> fresh(res.value) && res.value.Record() == r && res.value.Valid())
              && (res.Failure? ==> res.error == Construct(r).error)
    {
      res := Build(NewRecord(profileId, name, category, orderIndex, level, newId, now));
    }

    method UpdateInfo(newName: Option<string>, newCategory: Option<string>, newLevel: Option<string>,
                      now: Timestamp) returns (o: Outcome)
      modifies this
      ensures Record() == InfoUpdated(old(Record()), newName, newCategory, newLevel, now).state
      ensures o == InfoUpdated(old(Record()), newName, newCategory, newLevel, now).outcome
    {
      o := Pass;
      if newName.Some? {
        name := newName.value;
        o := CheckName(name);
        if o.Fail? { return; }
      }
      if newCategory.Some? {
        category := newCategory.value;
        o := CheckCategory(category);
        if o.Fail? { return; }
      }
      if newLevel.Some? {
        level := newLevel;
        o := CheckLevel(level);
        if o.Fail? { return; }
      }
      updatedAt := now;
    }
  }
}
