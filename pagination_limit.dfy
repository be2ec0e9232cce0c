/** The page size of the newer page window (src/v1/pagination/limit.rs): a
    `u64` the server accepts as a limit, 1 to 100. */
module PaginationLimit {
  import opened Core

  const MAX: u64 := 100
  const MIN: u64 := 1
  /** The default limit is the largest one. */
  const DEFAULT: u64 := MAX

  datatype LimitBoundsError = LimitBoundsError(limit: u64)

  /** `Limit::is_valid_limit`. */
  function IsValidLimit(limit: u64): (r: Result<(), LimitBoundsError>)
    ensures r.Ok? <==> 1 <= limit <= 100
    ensures r.Err? ==> r.error.limit == limit
  {
    if limit >= MIN && limit <= MAX then Ok(()) else Err(LimitBoundsError(limit))
  }

  datatype Limit = Limit(limit: u64) {

    /** `Limit::new`: a limit exactly when the value is valid, holding it. */
    static function New(limit: u64): (r: Result<Limit, LimitBoundsError>)
      ensures r.Ok? <==> 1 <= limit <= 100
      ensures r.Ok? ==> r.value.Get() == limit
      ensures r.Err? ==> r.error == LimitBoundsError(limit)
    {
      match IsValidLimit(limit)
      case Err(e) => Err(e)
      case Ok(_) => Ok(Limit(limit))
    }

    /** `Limit::set`: takes `&mut self`, checks `limit` and never stores it.
        Returns the outcome together with the value of `self` after the call,
        which is always the value before it. */
    function Set(limit: u64): (r: (Result<(), LimitBoundsError>, Limit))
      ensures r.0.Ok? <==> 1 <= limit <= 100
      ensures r.0.Err? ==> r.0.error == LimitBoundsError(limit)
      ensures r.1 == this
    {
      (IsValidLimit(limit), this)
    }

    function Get(): u64 {
      limit
    }

    /** `Limit::default()`. */
    static function Default(): (r: Limit)
      ensures r.Get() == 100 && New(r.Get()) == Ok(r)
    {
      Limit(DEFAULT)
    }
  }

  /** The compile-time assertions of the source on the three constants. */
  lemma ConstantsAgree()
    ensures MIN > 0 && MAX <= 100 && MAX >= MIN && MIN <= DEFAULT <= MAX
  {
  }
}
