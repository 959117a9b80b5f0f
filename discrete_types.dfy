/**
 * The primitive integer types a discrete random walk may step over, with
 * their ranges, and the saturating arithmetic and checked conversion the
 * discrete steppers build proposals with.
 */
module DiscreteTypes {
  import opened Outcomes

  /** The types that implement `DiscreteType`. */
  datatype IntKind = U8 | U16 | U32 | U64 | I8 | I16 | I32 | I64

  function MinOf(k: IntKind): int {
    match k
    case U8 => 0
    case U16 => 0
    case U32 => 0
    case U64 => 0
    case I8 => -0x80
    case I16 => -0x8000
    case I32 => -0x8000_0000
    case I64 => -0x8000_0000_0000_0000
  }

  function MaxOf(k: IntKind): int {
    match k
    case U8 => 0xff
    case U16 => 0xffff
    case U32 => 0xffff_ffff
    case U64 => 0xffff_ffff_ffff_ffff
    case I8 => 0x7f
    case I16 => 0x7fff
    case I32 => 0x7fff_ffff
    case I64 => 0x7fff_ffff_ffff_ffff
  }

  predicate InRange(k: IntKind, x: int) {
    MinOf(k) <= x <= MaxOf(k)
  }

  /** Every range holds 0 and is non-empty. */
  lemma RangeHoldsZero(k: IntKind)
    ensures MinOf(k) <= 0 < MaxOf(k)
  {
  }

  /** `T::from_usize(mag).unwrap()`: a magnitude the type cannot hold panics. */
  function FromMagnitude(k: IntKind, mag: nat): (r: Fallible<int>)
    ensures r.Done? <==> mag <= MaxOf(k)
    ensures r.Done? ==> r.value == mag && InRange(k, r.value)
    ensures r.Abort? ==> r.cause == MagnitudeOutOfRange
  {
    RangeHoldsZero(k);
    if mag <= MaxOf(k) then Done(mag) else Abort(MagnitudeOutOfRange)
  }

  /** `saturating_add` of a non-negative magnitude: the exact sum when it fits, the maximum otherwise. */
  function SaturatingAdd(k: IntKind, x: int, m: nat): (r: int)
    ensures InRange(k, x) ==> InRange(k, r) && x <= r <= x + m
    ensures r == x + m <==> x + m <= MaxOf(k)
    ensures r != x + m ==> r == MaxOf(k)
  {
    if x + m > MaxOf(k) then MaxOf(k) else x + m
  }

  /** `saturating_sub` of a non-negative magnitude: the exact difference when it fits, the minimum otherwise. */
  function SaturatingSub(k: IntKind, x: int, m: nat): (r: int)
    ensures InRange(k, x) ==> InRange(k, r) && x - m <= r <= x
    ensures r == x - m <==> MinOf(k) <= x - m
    ensures r != x - m ==> r == MinOf(k)
  {
    if x - m < MinOf(k) then MinOf(k) else x - m
  }

  /**
   * The symmetrised proposal of both discrete steppers: the magnitude is
   * converted to the value's type, then added when the coin `up` is true and
   * subtracted otherwise, saturating at the ends of the range. A current
   * value of the type is always in range.
   */
  function Propose(k: IntKind, current: int, mag: nat, up: bool): (r: Fallible<int>)
    ensures r.Done? <==> mag <= MaxOf(k)
    ensures r.Abort? ==> r.cause == MagnitudeOutOfRange
    ensures r.Done? && InRange(k, current) ==> InRange(k, r.value) && current - mag <= r.value <= current + mag
    ensures r.Done? && InRange(k, current) && up ==> current <= r.value
    ensures r.Done? && InRange(k, current) && !up ==> r.value <= current
  {
    match FromMagnitude(k, mag)
    case Abort(c) => Abort(c)
    case Done(m) => Done(if up then SaturatingAdd(k, current, m) else SaturatingSub(k, current, m))
  }

  /** Away from the ends of the range the proposal moves by exactly the magnitude. */
  lemma ProposalExactInside(k: IntKind, current: int, mag: nat, up: bool)
    requires InRange(k, current)
    requires InRange(k, current + mag) && InRange(k, current - mag)
    ensures Propose(k, current, mag, up) == Done(if up then current + mag else current - mag)
  {
    RangeHoldsZero(k);
  }
}
