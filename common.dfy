/**
 * Vocabulary shared by every part of the portfolio model: identifiers and
 * timestamps, the Option / Result wrappers, the domain errors of
 * app/domain/exceptions/domain_errors.py, the "blank string" test every
 * validator starts with, and the validators that several entities share.
 */
module Common {

  /** Entity identifiers are uuid strings; profile references are ids too. */
  type Id = string

  /** A `datetime`, seen only through its total order. */
  type Timestamp = int

  datatype Option<+T> = None | Some(value: T)

  datatype Result<+R, +E> = Success(value: R) | Failure(error: E) {
    predicate IsFailure() { Failure? }

    function PropagateFailure<U>(): Result<U, E>
      requires Failure?
    {
      Failure(error)
    }

    function Extract(): R
      requires Success?
    {
      value
    }
  }

  /** Which side of a length limit an `InvalidLengthError` reports. */
  datatype Bound = AtLeast(min: nat) | AtMost(max: nat)

  /** The two messages `InvalidDescriptionError` is raised with in project.py. */
  datatype DescriptionIssue = Empty | TooShortWithoutUrls

  /**
   * One constructor per exception class of domain_errors.py, carrying the
   * data the raising site passes. `InvalidStatus` is the bare `DomainError`
   * raised for an unknown contact-message status.
   */
  datatype DomainError =
    | EmptyField(field: string)
    | InvalidLength(field: string, bound: Bound)
    | InvalidUrl(url: string)
    | InvalidDateRange(start: Timestamp, end: Timestamp)
    | InvalidOrderIndex(index: int)
    | InvalidName
    | InvalidTitle
    | InvalidDescription(issue: DescriptionIssue)
    | InvalidCategory
    | InvalidSkillLevel(level: string)
    | InvalidRole
    | InvalidCompany
    | InvalidIssuer
    | InvalidInstitution
    | InvalidEmail(email: string)
    | InvalidPhone(phone: string)
    | InvalidPlatform
    | InvalidProvider
    | InvalidStatus(status: string)

  /**
   * The result of one validator: it either passes or raises. Inside a
   * function returning a `Result`, `:- check; rest` stops at the first
   * validator that raises, as the Python call sequence does.
   */
  datatype Outcome = Pass | Fail(error: DomainError) {
    predicate IsFailure() { Fail? }

    function PropagateFailure<U>(): Result<U, DomainError>
      requires Fail?
    {
      Failure(error)
    }
  }

  /** The first of two validators that raises. */
  function Then(first: Outcome, second: Outcome): (o: Outcome)
    ensures o.Pass? <==> first.Pass? && second.Pass?
    ensures first.Fail? ==> o == first
  {
    if first.Fail? then first else second
  }

  /**
   * The state an operation leaves behind together with what it reported.
   * Entities are not rolled back when a validator raises, so a failed
   * operation still has a (partially updated) state.
   */
  datatype Step<+S> = Step(state: S, outcome: Outcome)

  /**
   * The shape every profile-owned, ordered entity shares: its id, the
   * profile it belongs to, its position in that profile's list, the
   * entity-specific fields and the two timestamps.
   */
  datatype Entry<+T> = Entry(id: Id, profileId: Id, orderIndex: int, body: T,
                             createdAt: Timestamp, updatedAt: Timestamp)

  /**
   * An operation on the entity-specific fields, lifted to the entry: the
   * id, the placement and `created_at` never change, and `updated_at` is
   * refreshed exactly when the operation succeeds (`_mark_as_updated` is
   * the last statement of every update method).
   */
  function Touched<T>(r: Entry<T>, s: Step<T>, now: Timestamp): (t: Step<Entry<T>>)
    ensures t.state.body == s.state && t.outcome == s.outcome
    ensures t.state.(body := r.body, updatedAt := r.updatedAt) == r
    ensures t.state.id == r.id && t.state.profileId == r.profileId && t.state.orderIndex == r.orderIndex
    ensures t.state.createdAt == r.createdAt
    ensures t.state.updatedAt == if s.outcome.Pass? then now else r.updatedAt
  {
    Step(r.(body := s.state, updatedAt := if s.outcome.Pass? then now else r.updatedAt), s.outcome)
  }

  // ---------------------------------------------------------------------
  // Strings

  /** `str.isspace()` on one character, over the ASCII range. */
  predicate IsSpace(c: char) {
    c == ' ' || ('\t' <= c <= '\r') || ('\U{1C}' <= c <= '\U{1F}')
  }

  /** `not s or not s.strip()`: empty or whitespace only. */
  predicate IsBlank(s: string) {
    forall i :: 0 <= i < |s| ==> IsSpace(s[i])
  }

  /** `if x is not None and x.strip() == "": x = None`. */
  function BlankToNone(s: Option<string>): (r: Option<string>)
    ensures r.Some? <==> s.Some? && !IsBlank(s.value)
    ensures r.Some? ==> r == s
  {
    if s.Some? && IsBlank(s.value) then None else s
  }

  /** `if x is not None: self.f = x`. */
  function Pick<T>(update: Option<T>, current: T): T {
    if update.Some? then update.value else current
  }

  /** The same for a field that is itself optional: None never clears it. */
  function PickOpt<T>(update: Option<T>, current: Option<T>): (r: Option<T>)
    ensures update.Some? ==> r == update
    ensures update.None? ==> r == current
  {
    if update.Some? then update else current
  }

  // ---------------------------------------------------------------------
  // Validators shared by several entities

  /** A required text field: not blank and at most `maxLen` characters. */
  predicate RequiredTextOk(s: string, maxLen: nat) {
    !IsBlank(s) && |s| <= maxLen
  }

  /**
   * An optional text field after blank values were coerced to None:
   * absent, or present, not blank and at most `maxLen` characters.
   */
  predicate OptionalTextOk(s: Option<string>, maxLen: nat) {
    s.None? || (!IsBlank(s.value) && |s.value| <= maxLen)
  }

  /**
   * The common shape of `_validate_title`, `_validate_role`, … : a blank
   * value raises `onBlank`, a value longer than `maxLen` raises
   * `InvalidLengthError(field, max_length=maxLen)`.
   */
  function CheckRequiredText(s: string, onBlank: DomainError, field: string, maxLen: nat): (o: Outcome)
    ensures o.Pass? <==> RequiredTextOk(s, maxLen)
    ensures IsBlank(s) ==> o == Fail(onBlank)
  {
    if IsBlank(s) then Fail(onBlank)
    else if |s| > maxLen then Fail(InvalidLength(field, AtMost(maxLen)))
    else Pass
  }

  /** The length check of an optional field, applied after blank values became None. */
  function CheckOptionalText(s: Option<string>, field: string, maxLen: nat): (o: Outcome)
    requires s.Some? ==> !IsBlank(s.value)
    ensures o.Pass? <==> OptionalTextOk(s, maxLen)
  {
    if s.Some? && |s.value| > maxLen then Fail(InvalidLength(field, AtMost(maxLen))) else Pass
  }

  /**
   * `_validate_description`, `_validate_bio`, `_validate_duration`, … : a
   * blank value is written back as None, a longer one than `maxLen` raises.
   */
  function CheckCoercedText(s: Option<string>, field: string, maxLen: nat): (o: Outcome)
    ensures o.Pass? <==> OptionalTextOk(BlankToNone(s), maxLen)
    ensures o.Fail? ==> o == Fail(InvalidLength(field, AtMost(maxLen)))
  {
    CheckOptionalText(BlankToNone(s), field, maxLen)
  }

  /** Every item of a list is a non-blank text of at most `maxLen` characters. */
  predicate ItemsOk(items: seq<string>, maxLen: nat) {
    forall i :: 0 <= i < |items| ==> RequiredTextOk(items[i], maxLen)
  }

  /**
   * The loop over list items in `_validate_technologies` and
   * `_validate_responsibilities`: the first blank item raises
   * `EmptyFieldError(field)`, the first overlong one `InvalidLengthError`.
   */
  function CheckItems(items: seq<string>, field: string, maxLen: nat): (o: Outcome)
    ensures o.Pass? <==> ItemsOk(items, maxLen)
    ensures o.Fail? ==> o.error == EmptyField(field) || o.error == InvalidLength(field, AtMost(maxLen))
  {
    if items == [] then Pass
    else if IsBlank(items[0]) then Fail(EmptyField(field))
    else if |items[0]| > maxLen then Fail(InvalidLength(field, AtMost(maxLen)))
    else CheckItems(items[1..], field, maxLen)
  }

  /**
   * A list capped at `maxItems` entries of non-blank text of at most
   * `maxLen` characters: the size is checked before any item.
   */
  function CheckList(items: seq<string>, listField: string, itemField: string, maxItems: nat, maxLen: nat): (o: Outcome)
    ensures o.Pass? <==> |items| <= maxItems && ItemsOk(items, maxLen)
    ensures |items| > maxItems ==> o == Fail(InvalidLength(listField, AtMost(maxItems)))
  {
    if |items| > maxItems then Fail(InvalidLength(listField, AtMost(maxItems)))
    else CheckItems(items, itemField, maxLen)
  }

  /**
   * `add_technology` / `add_responsibility`: the list must have room, the
   * item must not be blank and must fit; only then is it appended. The
   * list is not re-validated, so earlier items are kept as they are.
   */
  function CheckAppend(items: seq<string>, item: string, listField: string, itemField: string,
                       maxItems: nat, maxLen: nat): (o: Outcome)
    ensures o.Pass? <==> |items| < maxItems && RequiredTextOk(item, maxLen)
  {
    if |items| >= maxItems then Fail(InvalidLength(listField, AtMost(maxItems)))
    else if IsBlank(item) then Fail(EmptyField(itemField))
    else if |item| > maxLen then Fail(InvalidLength(itemField, AtMost(maxLen)))
    else Pass
  }

  /** `_validate_profile_id`. */
  function CheckProfileId(profileId: Id): (o: Outcome)
    ensures o.Pass? <==> !IsBlank(profileId)
  {
    if IsBlank(profileId) then Fail(EmptyField("profile_id")) else Pass
  }

  /** `_validate_order_index`: negative positions are refused. */
  function CheckOrderIndex(index: int): (o: Outcome)
    ensures o.Pass? <==> index >= 0
  {
    if index < 0 then Fail(InvalidOrderIndex(index)) else Pass
  }

  /** A date range whose end, when present, lies strictly after its start. */
  predicate DateRangeOk(start: Timestamp, end: Option<Timestamp>) {
    end.None? || start < end.value
  }

  /** `_validate_dates`: an end date that is not after the start raises. */
  function CheckDateRange(start: Timestamp, end: Option<Timestamp>): (o: Outcome)
    ensures o.Pass? <==> DateRangeOk(start, end)
  {
    if end.Some? && end.value <= start then Fail(InvalidDateRange(start, end.value)) else Pass
  }

  /** The placement part of every ordered entity's invariant. */
  predicate PlacementOk<T>(r: Entry<T>) {
    !IsBlank(r.profileId) && r.orderIndex >= 0
  }

  /**
   * `update_order(new_order_index)`, which every ordered entity defines
   * the same way: the index is assigned first and then validated, so a
   * negative index stays in place although the call raises; only a
   * successful call refreshes `updated_at`.
   */
  function Reindexed<T>(r: Entry<T>, newIndex: int, now: Timestamp): (s: Step<Entry<T>>)
    ensures s.state.orderIndex == newIndex
    ensures s.state.(orderIndex := r.orderIndex, updatedAt := r.updatedAt) == r
    ensures s.outcome.Pass? <==> newIndex >= 0
    ensures s.state.updatedAt == if s.outcome.Pass? then now else r.updatedAt
    ensures PlacementOk(r) && s.outcome.Pass? ==> PlacementOk(s.state)
    ensures s.outcome.Fail? ==> !PlacementOk(s.state)
  {
    var moved := r.(orderIndex := newIndex);
    var o := CheckOrderIndex(newIndex);
    if o.Fail? then Step(moved, o) else Step(moved.(updatedAt := now), Pass)
  }
}
