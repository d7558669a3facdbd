/**
  The `UDim` value type: a `scale` and a pixel `offset`, with componentwise
  negation, addition and subtraction, and conversion to and from the DOM
  library's `UDim`.

  `offset` is a 32-bit signed integer; the operations require that the result
  fits, since overflow is not something the type defines. `scale` is an `f32`
  in the program and an exact `real` here, so binary32 rounding, NaN and
  signed zero are not modelled.
*/
module UDimType {
  import opened Wrappers

  newtype i32 = x: int | -0x8000_0000 <= x < 0x8000_0000

  datatype UDim = UDim(scale: real, offset: i32)

  /** The DOM library's own `UDim` record. */
  datatype DomUDim = DomUDim(scale: real, offset: i32)

  /** `UDim::new`. */
  function New(scale: real, offset: i32): (u: UDim)
  {
    UDim(scale, offset)
  }

  /** The script-facing constructor: each argument may be missing. */
  function Construct(scale: Option<real>, offset: Option<i32>): (u: UDim)
  {
    UDim(scale.UnwrapOr(0.0), offset.UnwrapOr(0))
  }

  /** `Default`. */
  function Default(): (u: UDim)
  {
    UDim(0.0, 0)
  }

  /** The derived `PartialEq`. */
  predicate Equal(a: UDim, b: UDim)
  {
    a.scale == b.scale && a.offset == b.offset
  }

  predicate CanNeg(u: UDim)
  {
    u.offset != -0x8000_0000
  }

  predicate CanAdd(a: UDim, b: UDim)
  {
    -0x8000_0000 <= a.offset as int + b.offset as int < 0x8000_0000
  }

  predicate CanSub(a: UDim, b: UDim)
  {
    -0x8000_0000 <= a.offset as int - b.offset as int < 0x8000_0000
  }

  function Neg(u: UDim): (r: UDim)
    requires CanNeg(u)
  {
    UDim(-u.scale, -u.offset)
  }

  function Add(a: UDim, b: UDim): (r: UDim)
    requires CanAdd(a, b)
  {
    UDim(a.scale + b.scale, a.offset + b.offset)
  }

  function Sub(a: UDim, b: UDim): (r: UDim)
    requires CanSub(a, b)
  {
    UDim(a.scale - b.scale, a.offset - b.offset)
  }

  /** `From<DomUDim> for UDim`. */
  function FromDom(v: DomUDim): (u: UDim)
  {
    UDim(v.scale, v.offset)
  }

  /** `From<UDim> for DomUDim`. */
  function ToDom(u: UDim): (v: DomUDim)
  {
    DomUDim(u.scale, u.offset)
  }

  // ---------------------------------------------------------------------------
  // Properties
  // ---------------------------------------------------------------------------

  lemma NewStoresFields(scale: real, offset: i32)
    ensures New(scale, offset).scale == scale && New(scale, offset).offset == offset
  {
  }

  /** A missing argument is zero; with both missing the result is `Default`. */
  lemma ConstructDefaultsToZero(scale: Option<real>, offset: Option<i32>)
    ensures Construct(scale, offset).scale == (if scale.Some? then scale.value else 0.0)
    ensures Construct(scale, offset).offset == (if offset.Some? then offset.value else 0)
    ensures Construct(None, None) == Default()
    ensures scale.Some? && offset.Some? ==> Construct(scale, offset) == New(scale.value, offset.value)
  {
  }

  lemma DefaultIsZero()
    ensures Default().scale == 0.0 && Default().offset == 0
    ensures Default() == New(0.0, 0)
  {
  }

  /** Equality compares both fields and nothing else. */
  lemma EqualIsFieldwise(a: UDim, b: UDim)
    ensures Equal(a, b) <==> a == b
  {
  }

  /** Negation acts on each field independently and undoes itself. */
  lemma NegIsComponentwise(u: UDim)
    requires CanNeg(u)
    ensures Neg(u).scale == -u.scale && Neg(u).offset as int == -(u.offset as int)
    ensures CanNeg(Neg(u)) && Neg(Neg(u)) == u
  {
  }

  lemma AddIsComponentwise(a: UDim, b: UDim)
    requires CanAdd(a, b)
    ensures Add(a, b).scale == a.scale + b.scale
    ensures Add(a, b).offset as int == a.offset as int + b.offset as int
    ensures CanAdd(b, a) && Add(b, a).offset == Add(a, b).offset
  {
  }

  /** Subtraction is componentwise and is addition of the negation. */
  lemma SubIsComponentwise(a: UDim, b: UDim)
    requires CanSub(a, b)
    ensures Sub(a, b).scale == a.scale - b.scale
    ensures Sub(a, b).offset as int == a.offset as int - b.offset as int
    ensures CanNeg(b) ==> CanAdd(a, Neg(b)) && Sub(a, b) == Add(a, Neg(b))
  {
  }

  /** On the offset, subtracting undoes adding. */
  lemma SubUndoesAddOnOffset(a: UDim, b: UDim)
    requires CanAdd(a, b)
    ensures CanSub(Add(a, b), b) && Sub(Add(a, b), b).offset == a.offset
  {
  }

  /** The two conversions are inverse to each other and preserve both fields. */
  lemma DomRoundTrip(u: UDim, v: DomUDim)
    ensures FromDom(ToDom(u)) == u
    ensures ToDom(FromDom(v)) == v
    ensures ToDom(u).scale == u.scale && ToDom(u).offset == u.offset
    ensures FromDom(v).scale == v.scale && FromDom(v).offset == v.offset
  {
  }
}
