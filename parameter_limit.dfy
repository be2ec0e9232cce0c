/** The page size built on `ConstrainedU64<1, 100, 100>`
    (src/v1/pagination/parameter/limit.rs). */
module ParameterLimit {
  import opened Core
  import Constrained

  const MAX: u64 := 100
  const MIN: u64 := 1
  const DEF: u64 := MAX

  /** `LimitBoundError`: `Min(LimitMinError)` or `Max(LimitMaxError)`. */
  datatype LimitBoundError = Min | Max

  /** `From<RangeBoundError<1, 100>> for LimitBoundError`: keeps the side of
      the range that was missed. */
  function FromRangeBoundError(e: Constrained.RangeBoundError): (r: LimitBoundError)
    ensures r.Min? <==> e.Min?
    ensures r.Max? <==> e.Max?
  {
    match e
    case Min => Min
    case Max => Max
  }

  /** The compile-time assertions of the source on the three constants. */
  lemma ConstantsAgree()
    ensures MIN >= 1 && MAX <= 100 && MAX >= MIN && MIN <= DEF <= MAX
  {
  }

  class Limit {
    const limit: Constrained.ConstrainedU64

    ghost predicate Valid()
      reads this, limit
    {
      limit.Valid() && limit.min == MIN && limit.max == MAX && limit.def == DEF
    }

    /** The struct expression `Limit { limit }`. The wrapped value is
        `Copy`, so the new Limit holds its own copy and shares nothing with
        the argument. */
    constructor Literal(limit: Constrained.ConstrainedU64)
      requires limit.Valid() && limit.min == MIN && limit.max == MAX && limit.def == DEF
      ensures fresh(this.limit) && Valid() && Get() == limit.Get()
    {
      this.limit := new Constrained.ConstrainedU64.Literal(MIN, MAX, DEF, limit.Get());
    }

    /** The derived `Limit::default()`: holds 100. */
    constructor Default()
      ensures fresh(limit) && Valid() && Get() == 100
    {
      limit := new Constrained.ConstrainedU64.Default(MIN, MAX, DEF);
    }

    function Get(): u64
      reads this, limit
    {
      limit.Get()
    }

    /** `Limit::new`: accepts exactly 1..=100. */
    static method New(value: u64) returns (r: Result<Limit, LimitBoundError>)
      ensures r.Ok? <==> 1 <= value <= 100
      ensures r.Err? ==> r.error == if value > 100 then Max else Min
      ensures r.Ok? ==> fresh(r.value) && fresh(r.value.limit) && r.value.Valid()
      ensures r.Ok? ==> r.value.Get() == value
    {
      var c := Constrained.ConstrainedU64.New(MIN, MAX, DEF, value);
      if c.Err? {
        return Err(FromRangeBoundError(c.error));
      }
      var l := new Limit.Literal(c.value);
      return Ok(l);
    }

    /** `Limit::set`: stores the value on success, keeps the old one on
        failure. */
    method Set(value: u64) returns (r: Result<(), LimitBoundError>)
      requires Valid()
      modifies limit
      ensures Valid()
      ensures r.Ok? <==> 1 <= value <= 100
      ensures r.Err? ==> r.error == if value > 100 then Max else Min
      ensures Get() == if r.Ok? then value else old(Get())
    {
      var outcome := limit.Set(value);
      if outcome.Err? {
        return Err(FromRangeBoundError(outcome.error));
      }
      return Ok(());
    }

    /** `Limit::available`: nothing for 0 and 1, 100 above 100, the value
        itself in between. */
    static method Available(value: u64) returns (r: Option<Limit>)
      ensures r.None? <==> value <= 1
      ensures r.Some? ==> fresh(r.value) && fresh(r.value.limit) && r.value.Valid()
      ensures r.Some? ==> r.value.Get() == if value > 100 then 100 else value
    {
      var c := Constrained.ConstrainedU64.Available(MIN, MAX, DEF, value);
      if c.None? {
        return None;
      }
      var l := new Limit.Literal(c.value);
      return Some(l);
    }
  }
}
