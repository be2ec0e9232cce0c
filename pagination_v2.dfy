/** The newer bounded page window (src/v1/pagination/mod.rs): checked
    arithmetic, an inclusive ceiling `SUM_MAX` = 9 999 for `offset + limit`, and
    the limit kept in a `PaginationLimit.Limit`. Because `Limit::set` never
    stores its argument, `set_limit` and the shrinking branch of `next_page`
    leave the limit as it was; the contracts below say so. */
module PaginationV2 {
  import opened Core
  import PaginationLimit

  /** How many results the caller wants from a paged query. */
  datatype Results = All | Limit(requested: u64)

  /** `Results::default()`. */
  const DEFAULT_RESULTS: Results := All

  /** The largest `offset + limit` the server accepts. */
  const SUM_MAX: u64 := 9_999
  const RANGE_LIMIT: u64 := SUM_MAX + 1
  const OFFSET_DEFAULT: u64 := 0

  /** `CheckedNonZero::checked_nonzero_sub` on `u64`: the difference when it
      neither underflows nor is zero. */
  function CheckedNonZeroSub(a: u64, b: u64): (r: Option<u64>)
    ensures r.Some? <==> b < a
    ensures r.Some? ==> r.value as int == a as int - b as int && r.value != 0
  {
    match CheckedSub(a, b)
    case None => None
    case Some(d) => if d != 0 then Some(d) else None
  }

  /** `offset + limit` passed `SUM_MAX`; `available` is the largest limit
      still possible at `offset`, if any. */
  datatype RangeBoundsError = RangeBoundsError(offset: u64, limit: u64, available: Option<u64>)

  datatype PaginationError =
    | Range(rangeError: RangeBoundsError)
    | Limit(limitError: PaginationLimit.LimitBoundsError)

  /** `Page::is_valid_range`: the sum must not overflow and must be at most
      9 999. */
  function IsValidRange(offset: u64, limit: u64): (r: Result<(), RangeBoundsError>)
    ensures r.Ok? <==> offset as int + limit as int <= 9_999
    ensures r.Err? ==> r.error.offset == offset && r.error.limit == limit
    ensures r.Err? ==> r.error.available == if offset < 9_999 then Some(9_999 - offset) else None
  {
    var sum := CheckedAdd(offset, limit);
    if sum.Some? && sum.value <= SUM_MAX then Ok(())
    else Err(RangeBoundsError(offset, limit, CheckedNonZeroSub(SUM_MAX, offset)))
  }

  /** The test case of the source: `u64::MAX + 1` is caught, not wrapped. */
  lemma NoOverflowAtMax()
    ensures IsValidRange(U64_MAX, 1) == Err(RangeBoundsError(U64_MAX, 1, None))
  {
  }

  class Page {
    var offset: u64
    var limit: PaginationLimit.Limit

    /** The limit is always one the server accepts. */
    ghost predicate Valid()
      reads this
    {
      1 <= limit.Get() <= 100
    }

    /** `offset + limit` is within the ceiling. Construction establishes it,
        but the shrinking branch of `next_page` can break it. */
    ghost predicate InRange()
      reads this
    {
      offset as int + limit.Get() as int <= SUM_MAX as int
    }

    /** The struct expression `Page { offset, limit }`. */
    constructor Literal(offset: u64, limit: PaginationLimit.Limit)
      ensures this.offset == offset && this.limit == limit
    {
      this.offset := offset;
      this.limit := limit;
    }

    /** `Page::default()`: offset 0 and the default limit 100. */
    constructor Default()
      ensures GetOffset() == 0 && GetLimit() == 100 && Valid() && InRange()
    {
      offset := OFFSET_DEFAULT;
      limit := PaginationLimit.Limit.Default();
    }

    function GetOffset(): u64
      reads this
    {
      offset
    }

    function GetLimit(): u64
      reads this
    {
      limit.Get()
    }

    /** `Page::new`: the limit is checked first, then the range; on success
        the getters give back the inputs. */
    static method New(offset: u64, limit: u64) returns (r: Result<Page, PaginationError>)
      ensures r.Ok? <==> 1 <= limit <= 100 && offset as int + limit as int <= 9_999
      ensures !(1 <= limit <= 100) ==>
        r == Err(PaginationError.Limit(PaginationLimit.LimitBoundsError(limit)))
      ensures 1 <= limit <= 100 && r.Err? ==>
        r.error.Range? && Err(r.error.rangeError) == IsValidRange(offset, limit)
      ensures r.Ok? ==> fresh(r.value) && r.value.Valid() && r.value.InRange()
      ensures r.Ok? ==> r.value.GetOffset() == offset && r.value.GetLimit() == limit
    {
      var l := PaginationLimit.Limit.New(limit);
      if l.Err? {
        return Err(PaginationError.Limit(l.error));
      }
      var check := IsValidRange(offset, l.value.Get());
      if check.Err? {
        return Err(Range(check.error));
      }
      var page := new Page.Literal(offset, l.value);
      return Ok(page);
    }

    /** `Page::with_offset`: the default limit 100 at `offset`. */
    static method WithOffset(offset: u64) returns (r: Result<Page, RangeBoundsError>)
      ensures r.Ok? <==> offset as int + 100 <= 9_999
      ensures r.Err? ==> Err(r.error) == IsValidRange(offset, 100)
      ensures r.Ok? ==> fresh(r.value) && r.value.Valid() && r.value.InRange()
      ensures r.Ok? ==> r.value.GetOffset() == offset && r.value.GetLimit() == 100
    {
      var l := PaginationLimit.Limit.Default();
      var check := IsValidRange(offset, l.Get());
      if check.Err? {
        return Err(check.error);
      }
      var page := new Page.Literal(offset, l);
      return Ok(page);
    }

    /** `Page::with_limit`: `new` at offset 0. */
    static method WithLimit(limit: u64) returns (r: Result<Page, PaginationError>)
      ensures r.Ok? <==> 1 <= limit <= 100
      ensures r.Err? ==> r == Err(PaginationError.Limit(PaginationLimit.LimitBoundsError(limit)))
      ensures r.Ok? ==> fresh(r.value) && r.value.Valid() && r.value.InRange()
      ensures r.Ok? ==> r.value.GetOffset() == 0 && r.value.GetLimit() == limit
    {
      r := New(OFFSET_DEFAULT, limit);
    }

    /** `set_offset`: moves only on success, never touches the limit. */
    method SetOffset(offset: u64) returns (r: Result<(), RangeBoundsError>)
      modifies this
      ensures this.limit == old(this.limit)
      ensures r.Ok? <==> offset as int + GetLimit() as int <= 9_999
      ensures this.offset == if r.Ok? then offset else old(this.offset)
      ensures r.Err? ==> Err(r.error) == IsValidRange(offset, GetLimit())
    {
      var check := IsValidRange(offset, limit.Get());
      if check.Err? {
        return Err(check.error);
      }
      this.offset := offset;
      return Ok(());
    }

    /** `set_limit`: the range is checked first, then the limit; success
        reports the new limit as accepted, yet the page is never changed. */
    method SetLimit(limit: u64) returns (r: Result<(), PaginationError>)
      modifies this
      ensures this.offset == old(this.offset) && this.limit == old(this.limit)
      ensures r.Ok? <==> offset as int + limit as int <= 9_999 && 1 <= limit <= 100
      ensures offset as int + limit as int > 9_999 ==>
        r.Err? && r.error.Range? && Err(r.error.rangeError) == IsValidRange(offset, limit)
      ensures offset as int + limit as int <= 9_999 && r.Err? ==>
        r.error == PaginationError.Limit(PaginationLimit.LimitBoundsError(limit))
    {
      var check := IsValidRange(this.offset, limit);
      if check.Err? {
        return Err(Range(check.error));
      }
      var (outcome, after) := this.limit.Set(limit);
      this.limit := after;
      if outcome.Err? {
        return Err(PaginationError.Limit(outcome.error));
      }
      return Ok(());
    }

    /** `next_page`: moves to `next` whenever some window is left there
        (`next < 9 999`), but the shrunk limit is not stored, so the window
        passes the ceiling whenever it should have shrunk. At or past the
        boundary it fails with no available limit and changes nothing. */
    method NextPage(next: u64) returns (r: Result<(), PaginationError>)
      requires Valid()
      modifies this
      ensures Valid() && this.limit == old(this.limit)
      ensures r.Ok? <==> next < 9_999
      ensures r.Ok? ==> offset == next
      ensures r.Ok? ==> (InRange() <==> next as int + GetLimit() as int <= 9_999)
      ensures r.Err? ==> offset == old(offset)
      ensures r.Err? ==> r == Err(Range(RangeBoundsError(next, GetLimit(), None)))
    {
      var moved := SetOffset(next);
      if moved.Err? && moved.error.available.Some? {
        var available := moved.error.available.value;
        match IsValidRange(next, available)
        case Err(e) =>
          return Err(Range(e));
        case Ok(_) =>
        var (outcome, after) := this.limit.Set(available);
        this.limit := after;
        match outcome
        case Err(e) =>
          return Err(PaginationError.Limit(e));
        case Ok(_) =>
        this.offset := next;
        return Ok(());
      }
      match moved
      case Ok(_) => r := Ok(());
      case Err(e) => r := Err(Range(e));
    }
  }

  /** The defect made concrete: from the default page (offset 0, limit 100),
      `next_page(9 950)` succeeds and leaves offset 9 950 with limit 100, a
      window reaching past result 9 999. */
  method ClampOverrunsCeiling() returns (page: Page)
    ensures page.GetOffset() == 9_950 && page.GetLimit() == 100
    ensures !page.InRange()
  {
    page := new Page.Default();
    var r := page.NextPage(9_950);
  }
}
