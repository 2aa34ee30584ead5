/**
 * PaginationRequest (app/application/dto/base_dto.py): the list-query
 * parameters, whose `__post_init__` pulls a negative skip up to zero and
 * a limit into the range 1 to 1000.
 */
module Pagination {
  import opened Common

  const DefaultSkip: int := 0
  const DefaultLimit: int := 100
  const MinLimit: int := 1
  const MaxLimit: int := 1000

  /** The skip `__post_init__` keeps. */
  function ClampedSkip(skip: int): (s: int)
    ensures s >= 0
    ensures skip >= 0 ==> s == skip
    ensures skip < 0 ==> s == 0
  {
    if skip < 0 then 0 else skip
  }

  /** The limit `__post_init__` keeps: the first guard raises it to 1, the second lowers it to 1000. */
  function ClampedLimit(limit: int): (l: int)
    ensures MinLimit <= l <= MaxLimit
    ensures MinLimit <= limit <= MaxLimit ==> l == limit
    ensures limit < MinLimit ==> l == MinLimit
    ensures limit > MaxLimit ==> l == MaxLimit
  {
    var raised := if limit < MinLimit then MinLimit else limit;
    if raised > MaxLimit then MaxLimit else raised
  }

  /** A request in range is what `__post_init__` leaves behind. */
  predicate InRange(skip: int, limit: int) {
    skip >= 0 && MinLimit <= limit <= MaxLimit
  }

  /** Clamping twice is clamping once, and a request in range is left alone. */
  lemma ClampIdempotent(skip: int, limit: int)
    ensures ClampedSkip(ClampedSkip(skip)) == ClampedSkip(skip)
    ensures ClampedLimit(ClampedLimit(limit)) == ClampedLimit(limit)
    ensures InRange(ClampedSkip(skip), ClampedLimit(limit))
    ensures InRange(skip, limit) <==> ClampedSkip(skip) == skip && ClampedLimit(limit) == limit
  {
  }

  /** A larger requested limit never yields a smaller one. */
  lemma ClampedLimitMonotone(a: int, b: int)
    requires a <= b
    ensures ClampedLimit(a) <= ClampedLimit(b)
  {
  }

  class PaginationRequest {
    var skip: int
    var limit: int
    var sortBy: Option<string>
    var ascending: bool

    predicate Valid()
      reads this
    {
      InRange(skip, limit)
    }

    /** The dataclass constructor followed by `__post_init__`. */
    constructor (skip0: int, limit0: int, sortBy0: Option<string>, ascending0: bool)
      ensures Valid()
      ensures skip == ClampedSkip(skip0) && limit == ClampedLimit(limit0)
      ensures sortBy == sortBy0 && ascending == ascending0
    {
      skip, limit, sortBy, ascending := skip0, limit0, sortBy0, ascending0;
      new;
      if skip < 0 {
        skip := 0;
      }
      if limit < MinLimit {
        limit := MinLimit;
      }
      if limit > MaxLimit {
        limit := MaxLimit;
      }
    }

    /** `PaginationRequest()`: skip 0, limit 100, no sort key, ascending. */
    constructor Default()
      ensures Valid()
      ensures skip == DefaultSkip && limit == DefaultLimit && sortBy.None? && ascending
    {
      skip, limit, sortBy, ascending := DefaultSkip, DefaultLimit, None, true;
    }
  }
}
