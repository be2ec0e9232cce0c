/** The page start built on `ConstrainedU64<0, u64::MAX, 0>`
    (src/v1/pagination/parameter/offset.rs). Every `u64` is in range, so all
    operations are infallible. */
module ParameterOffset {
  import opened Core
  import Constrained

  const MAX: u64 := U64_MAX
  const MIN: u64 := 0
  const DEF: u64 := MIN

  /** The compile-time assertions of the source: the range is all of `u64`
      and the default lies in it. */
  lemma ConstantsAgree()
    ensures MIN == 0 && MAX == U64_MAX && MAX >= MIN && MIN <= DEF <= MAX
  {
  }

  class Offset {
    const offset: Constrained.ConstrainedU64

    ghost predicate Valid()
      reads this, offset
    {
      offset.Valid() && offset.min == MIN && offset.max == MAX && offset.def == DEF
    }

    /** The derived `Offset::default()`: holds 0. */
    constructor Default()
      ensures fresh(offset) && Valid() && Get() == 0
    {
      offset := new Constrained.ConstrainedU64.Default(MIN, MAX, DEF);
    }

    /** The struct expression `Offset { offset }`. The wrapped value is
        `Copy`, so the new Offset holds its own copy and shares nothing with
        the argument. */
    constructor Literal(offset: Constrained.ConstrainedU64)
      requires offset.Valid() && offset.min == MIN && offset.max == MAX && offset.def == DEF
      ensures fresh(this.offset) && Valid() && Get() == offset.Get()
    {
      this.offset := new Constrained.ConstrainedU64.Literal(MIN, MAX, DEF, offset.Get());
    }

    function Get(): u64
      reads this, offset
    {
      offset.Get()
    }

    /** `Offset::new`: holds any `u64`, returned unchanged by `get`. */
    static method New(value: u64) returns (o: Offset)
      ensures fresh(o) && fresh(o.offset) && o.Valid() && o.Get() == value
    {
      var c := Constrained.ConstrainedU64.NewInfallible(DEF, value);
      o := new Offset.Literal(c);
    }

    /** `Offset::set`: never fails; `get` afterwards returns the value. */
    method Set(value: u64)
      requires Valid()
      modifies offset
      ensures Valid() && Get() == value
    {
      offset.SetInfallible(value);
    }
  }
}
