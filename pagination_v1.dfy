/** The older bounded page window (src/v1/pagination.rs): an `offset`/`limit`
    pair kept inside the server's limits with saturating arithmetic. The
    paging iterator is built on this version. */
module PaginationV1 {
  import opened Core

  /** How many results the caller wants from a paged query. */
  datatype Pages = All | Limit(requested: u64)

  /** `Pages::default()`. */
  const DEFAULT_PAGES: Pages := All

  /** The server serves at most the first 10 000 results of any query. */
  const RANGE_LIMIT: u64 := 10_000
  /** The server rejects a page of more than 100 results (and one of 0). */
  const LIMIT_MAX: u64 := 100
  const LIMIT_DEFAULT: u64 := 10
  const OFFSET_DEFAULT: u64 := 0

  /** `offset + limit` reached the ceiling; `availiable` (sic) is the largest
      limit still possible at `offset`, 0 when none is. */
  datatype RangeBoundsError = RangeBoundsError(offset: u64, limit: u64, availiable: u64)

  datatype LimitBoundsError = LimitBoundsError(limit: u64)

  datatype PaginationError =
    | Range(rangeError: RangeBoundsError)
    | Limit(limitError: LimitBoundsError)

  /** The value held by a `Page`. */
  datatype Window = Window(offset: u64, limit: u64)

  /** What every `Page` satisfies: a limit the server accepts and a window
      inside the first 10 000 results. */
  predicate ValidWindow(w: Window) {
    1 <= w.limit <= LIMIT_MAX && w.offset as int + w.limit as int < RANGE_LIMIT as int
  }

  /** `Page::is_valid_range`: the sum must stay below 10 000; saturation makes
      an overflowing sum count as too large. */
  function IsValidRange(offset: u64, limit: u64): (r: Result<(), RangeBoundsError>)
    ensures r.Ok? <==> offset as int + limit as int < 10_000
    ensures r.Err? ==> r.error.offset == offset && r.error.limit == limit
    ensures r.Err? ==> r.error.availiable as int == MaxInt(9_999 - offset as int, 0)
  {
    if SaturatingAdd(offset, limit) < RANGE_LIMIT then Ok(())
    else
      var availiable := SaturatingSub(SaturatingSub(RANGE_LIMIT, offset), 1);
      Err(RangeBoundsError(offset, limit, availiable))
  }

  /** `Page::is_valid_limit`. */
  function IsValidLimit(limit: u64): (r: Result<(), LimitBoundsError>)
    ensures r.Ok? <==> 1 <= limit <= 100
    ensures r.Err? ==> r.error.limit == limit
  {
    if limit <= LIMIT_MAX && limit > 0 then Ok(()) else Err(LimitBoundsError(limit))
  }

  /** `Page::check_boundaries`: the limit is checked before the range, so an
      out-of-bounds limit is always reported as a limit error. */
  function CheckBoundaries(offset: u64, limit: u64): (r: Result<(), PaginationError>)
    ensures r.Ok? <==> ValidWindow(Window(offset, limit))
    ensures !(1 <= limit <= 100) ==> r == Err(PaginationError.Limit(LimitBoundsError(limit)))
    ensures 1 <= limit <= 100 && r.Err? ==>
      r.error.Range? && r.error.rangeError.offset == offset && r.error.rangeError.limit == limit &&
      r.error.rangeError.availiable as int == MaxInt(9_999 - offset as int, 0)
  {
    match IsValidLimit(limit)
    case Err(e) => Err(PaginationError.Limit(e))
    case Ok(_) =>
      match IsValidRange(offset, limit)
      case Err(e) => Err(Range(e))
      case Ok(_) => Ok(())
  }

  /** The outcome of `set_limit(limit)` on a page holding `w`: the new window,
      or the error (the page then keeps `w`). Only the limit can change. */
  function SetLimitOf(w: Window, limit: u64): (r: Result<Window, PaginationError>)
    ensures r.Ok? <==> ValidWindow(Window(w.offset, limit))
    ensures r.Ok? ==> r.value == Window(w.offset, limit)
    ensures r.Err? ==> Err(r.error) == CheckBoundaries(w.offset, limit)
  {
    match CheckBoundaries(w.offset, limit)
    case Err(e) => Err(e)
    case Ok(_) => Ok(w.(limit := limit))
  }

  /** The outcome of `next_page(next)` on a page holding `w`: move to `next`,
      shrinking the limit to what is left below the ceiling; fail (keeping
      `w`) only when nothing is left. */
  function NextPageOf(w: Window, next: u64): (r: Result<Window, RangeBoundsError>)
    ensures r.Ok? <==> next < 9_999 || next as int + w.limit as int < 10_000
    ensures r.Ok? ==> r.value.offset == next && r.value.limit as int == MinInt(w.limit as int, 9_999 - next as int)
    ensures r.Err? ==> r.error == RangeBoundsError(next, w.limit, 0)
  {
    match IsValidRange(next, w.limit)
    case Ok(_) => Ok(w.(offset := next))
    case Err(err) =>
      if err.availiable > 0 then Ok(Window(next, err.availiable)) else Err(err)
  }

  /** Moving to the next page keeps a valid window valid, and on a valid
      window it fails exactly at the boundary 9 999. */
  lemma NextPageKeepsValid(w: Window, next: u64)
    requires ValidWindow(w)
    ensures NextPageOf(w, next).Ok? <==> next < 9_999
    ensures NextPageOf(w, next).Ok? ==> ValidWindow(NextPageOf(w, next).value)
  {
  }

  /** `next_page` to the offset the page already holds changes nothing; so
      does a second identical call. */
  lemma NextPageIdempotent(w: Window, next: u64)
    requires NextPageOf(w, next).Ok?
    ensures NextPageOf(NextPageOf(w, next).value, next) == NextPageOf(w, next)
  {
  }

  class Page {
    var offset: u64
    var limit: u64

    function View(): Window
      reads this
    {
      Window(offset, limit)
    }

    ghost predicate Valid()
      reads this
    {
      ValidWindow(View())
    }

    /** The struct expression `Page { offset, limit }`. */
    constructor Literal(offset: u64, limit: u64)
      ensures View() == Window(offset, limit)
    {
      this.offset := offset;
      this.limit := limit;
    }

    /** `Page::default()`: offset 0, limit 10. */
    constructor Default()
      ensures View() == Window(0, 10) && Valid()
    {
      offset := OFFSET_DEFAULT;
      limit := LIMIT_DEFAULT;
    }

    /** `Page::new`: a page exactly when both bounds hold. */
    static method New(offset: u64, limit: u64) returns (r: Result<Page, PaginationError>)
      ensures r.Ok? <==> ValidWindow(Window(offset, limit))
      ensures r.Ok? ==> fresh(r.value) && r.value.View() == Window(offset, limit) && r.value.Valid()
      ensures r.Err? ==> Err(r.error) == CheckBoundaries(offset, limit)
    {
      var check := CheckBoundaries(offset, limit);
      if check.Err? {
        return Err(check.error);
      }
      var page := new Page.Literal(offset, limit);
      return Ok(page);
    }

    /** `Page::with_offset`: the default limit 10 at `offset`. */
    static method WithOffset(offset: u64) returns (r: Result<Page, RangeBoundsError>)
      ensures r.Ok? <==> offset as int + 10 < 10_000
      ensures r.Ok? ==> fresh(r.value) && r.value.View() == Window(offset, 10) && r.value.Valid()
      ensures r.Err? ==> r.error.offset == offset && r.error.limit == 10 &&
                         r.error.availiable as int == MaxInt(9_999 - offset as int, 0)
    {
      var check := IsValidRange(offset, LIMIT_DEFAULT);
      if check.Err? {
        return Err(check.error);
      }
      var page := new Page.Literal(offset, LIMIT_DEFAULT);
      return Ok(page);
    }

    /** `Page::with_limit`: `new` at offset 0. */
    static method WithLimit(limit: u64) returns (r: Result<Page, PaginationError>)
      ensures r.Ok? <==> 1 <= limit <= 100
      ensures r.Ok? ==> fresh(r.value) && r.value.View() == Window(0, limit) && r.value.Valid()
      ensures r.Err? ==> r.error == PaginationError.Limit(LimitBoundsError(limit))
    {
      r := New(OFFSET_DEFAULT, limit);
    }

    function GetOffset(): u64
      reads this
    {
      offset
    }

    function GetLimit(): u64
      reads this
    {
      limit
    }

    /** `set_offset`: moves the window only when the new range is valid; the
        limit is never touched. */
    method SetOffset(offset: u64) returns (r: Result<(), RangeBoundsError>)
      requires Valid()
      modifies this
      ensures Valid()
      ensures this.limit == old(this.limit)
      ensures r.Ok? <==> offset as int + this.limit as int < 10_000
      ensures this.offset == if r.Ok? then offset else old(this.offset)
      ensures r.Err? ==> r.error.offset == offset && r.error.limit == this.limit &&
                         r.error.availiable as int == MaxInt(9_999 - offset as int, 0)
    {
      var check := IsValidRange(offset, this.limit);
      if check.Err? {
        return Err(check.error);
      }
      this.offset := offset;
      return Ok(());
    }

    /** `set_limit`: changes the limit only, and only on success. */
    method SetLimit(limit: u64) returns (r: Result<(), PaginationError>)
      requires Valid()
      modifies this
      ensures Valid()
      ensures match SetLimitOf(old(View()), limit)
        case Ok(w) => r.Ok? && View() == w
        case Err(e) => r == Err(e) && View() == old(View())
    {
      var check := CheckBoundaries(this.offset, limit);
      if check.Err? {
        return Err(check.error);
      }
      this.limit := limit;
      return Ok(());
    }

    /** `next_page`: see `NextPageOf`. */
    method NextPage(next: u64) returns (r: Result<(), RangeBoundsError>)
      requires Valid()
      modifies this
      ensures Valid()
      ensures match NextPageOf(old(View()), next)
        case Ok(w) => r.Ok? && View() == w
        case Err(e) => r == Err(e) && View() == old(View())
    {
      match IsValidRange(next, limit)
      case Ok(_) =>
        offset := next;
        r := Ok(());
      case Err(err) =>
        if err.availiable > 0 {
          offset := next;
          limit := err.availiable;
          r := Ok(());
        } else {
          r := Err(err);
        }
    }
  }
}
