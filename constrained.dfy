/** A `u64` kept inside an inclusive range [min, max], with a default
    (src/v1/pagination/parameter/constrained.rs). The source fixes `MIN`, `MAX`
    and `DEF` as const generic parameters; here they are constant fields set
    when a value is made, and every way of making one requires
    `min <= def <= max`. */
module Constrained {
  import opened Core

  /** `RangeBoundError<MIN, MAX>`: `Min(MinError)` or `Max(MaxError)`. */
  datatype RangeBoundError = Min | Max

  /** `ConstrainedU64::is_valid`: a value above `max` is reported as `Max`
      before the lower bound is looked at. */
  function IsValid(min: u64, max: u64, value: u64): (r: Result<(), RangeBoundError>)
    ensures r.Ok? <==> min <= value <= max
    ensures value > max ==> r == Err(Max)
    ensures value <= max && value < min ==> r == Err(Min)
  {
    if value > max then Err(Max)
    else if value < min then Err(Min)
    else Ok(())
  }

  /** The value held by `ConstrainedU64::available(value)`, if it returns one:
      nothing at or below `min`, `max` above `max`, and otherwise `value`. */
  function AvailableValue(min: u64, max: u64, value: u64): (r: Option<u64>)
    requires min <= max
    ensures value <= min ==> r == None
    ensures value > max ==> r == Some(max)
    ensures min < value <= max ==> r == Some(value)
  {
    match IsValid(min, max, value)
    case Ok(_) => if value == min then None else Some(value)
    case Err(Min) => None
    case Err(Max) => Some(max)
  }

  class ConstrainedU64 {
    const min: u64
    const max: u64
    const def: u64
    var value: u64

    ghost predicate Valid()
      reads this
    {
      min <= def <= max && min <= value <= max
    }

    /** The tuple-struct expression `Self(value)`. */
    constructor Literal(min: u64, max: u64, def: u64, value: u64)
      requires min <= def <= max && min <= value <= max
      ensures this.min == min && this.max == max && this.def == def
      ensures Valid() && Get() == value
    {
      this.min := min;
      this.max := max;
      this.def := def;
      this.value := value;
    }

    /** `ConstrainedU64::default()`: holds `def`. */
    constructor Default(min: u64, max: u64, def: u64)
      requires min <= def <= max
      ensures this.min == min && this.max == max && this.def == def
      ensures Valid() && Get() == def
    {
      this.min := min;
      this.max := max;
      this.def := def;
      this.value := def;
    }

    function Get(): u64
      reads this
    {
      value
    }

    /** `ConstrainedU64::new`: succeeds exactly on a value in range, which
        `get` then returns. */
    static method New(min: u64, max: u64, def: u64, value: u64)
      returns (r: Result<ConstrainedU64, RangeBoundError>)
      requires min <= def <= max
      ensures r.Ok? <==> min <= value <= max
      ensures r.Err? ==> Err(r.error) == IsValid(min, max, value)
      ensures r.Ok? ==> fresh(r.value) && r.value.Valid() && r.value.Get() == value
      ensures r.Ok? ==> r.value.min == min && r.value.max == max && r.value.def == def
    {
      var check := IsValid(min, max, value);
      if check.Err? {
        return Err(check.error);
      }
      var c := new ConstrainedU64.Literal(min, max, def, value);
      return Ok(c);
    }

    /** `ConstrainedU64::set`: stores `value` on success; on failure the held
        value stays. */
    method Set(value: u64) returns (r: Result<(), RangeBoundError>)
      requires Valid()
      modifies this
      ensures Valid()
      ensures r.Ok? <==> min <= value <= max
      ensures r.Err? ==> Err(r.error) == IsValid(min, max, value)
      ensures Get() == if r.Ok? then value else old(Get())
    {
      var check := IsValid(min, max, value);
      if check.Err? {
        return Err(check.error);
      }
      this.value := value;
      return Ok(());
    }

    /** `ConstrainedU64::available`: the clamp of `AvailableValue`, as a new
        constrained value. */
    static method Available(min: u64, max: u64, def: u64, value: u64)
      returns (r: Option<ConstrainedU64>)
      requires min <= def <= max
      ensures r.None? <==> AvailableValue(min, max, value).None?
      ensures r.Some? ==> fresh(r.value) && r.value.Valid()
      ensures r.Some? ==> r.value.Get() == AvailableValue(min, max, value).value
      ensures r.Some? ==> r.value.min == min && r.value.max == max && r.value.def == def
    {
      var check := IsValid(min, max, value);
      if check.Ok? {
        if value == min {
          r := None;
        } else {
          var c := new ConstrainedU64.Literal(min, max, def, value);
          r := Some(c);
        }
      } else if check.error.Min? {
        r := None;
      } else {
        var c := new ConstrainedU64.Literal(min, max, def, max);
        r := Some(c);
      }
    }

    /** `new_infallible`, defined only for the full range `0..=u64::MAX`:
        holds any value. */
    static method NewInfallible(def: u64, value: u64) returns (c: ConstrainedU64)
      ensures fresh(c) && c.Valid() && c.Get() == value
      ensures c.min == 0 && c.max == U64_MAX && c.def == def
    {
      c := new ConstrainedU64.Literal(0, U64_MAX, def, value);
    }

    /** `set_infallible`, defined only for the full range: stores any value. */
    method SetInfallible(value: u64)
      requires Valid() && min == 0 && max == U64_MAX
      modifies this
      ensures Valid() && Get() == value
    {
      this.value := value;
    }
  }
}
