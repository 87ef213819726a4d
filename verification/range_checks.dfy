/**
 * The four interval-membership checks of `range_checks.hpp`. Each compares the
 * value against both bounds with the IEEE comparisons, so every check fails
 * on NaN, and describes the interval in its comment, rendering the numbers with
 * `std::to_string` (the `show` parameter).
 */
module RangeChecks {
  import opened Ieee
  import opened Status
  import opened Text

  /** `size_t` */
  type SizeT = x: nat | x < 0x1_0000_0000_0000_0000

  /** `value must be inside the range <open>min, max<close>` */
  function RangeComment(show: Float -> string, value: Float, min: Float, max: Float, open: string, close: string)
    : string
  {
    show(value) + " must be inside the range " + open + show(min) + ", " + show(max) + close
  }

  /** `in_range_open_open`: value in (min, max) */
  function InRangeOpenOpen(show: Float -> string, value: Float, min: Float, max: Float): (r: ReturnStatus)
    ensures value.NaN? || min.NaN? || max.NaN? ==> !r.status
    ensures value.Fin? && min.Fin? && max.Fin? ==> (r.status <==> min.r < value.r < max.r)
    ensures r.comment == RangeComment(show, value, min, max, "(", ")")
  {
    ReturnStatus(RangeComment(show, value, min, max, "(", ")"), Gt(value, min) && Lt(value, max))
  }

  /** `in_range_closed_open`: value in [min, max) */
  function InRangeClosedOpen(show: Float -> string, value: Float, min: Float, max: Float): (r: ReturnStatus)
    ensures value.NaN? || min.NaN? || max.NaN? ==> !r.status
    ensures value.Fin? && min.Fin? && max.Fin? ==> (r.status <==> min.r <= value.r < max.r)
    ensures r.comment == RangeComment(show, value, min, max, "[", ")")
  {
    ReturnStatus(RangeComment(show, value, min, max, "[", ")"), Ge(value, min) && Lt(value, max))
  }

  /** `in_range_open_closed`: value in (min, max] */
  function InRangeOpenClosed(show: Float -> string, value: Float, min: Float, max: Float): (r: ReturnStatus)
    ensures value.NaN? || min.NaN? || max.NaN? ==> !r.status
    ensures value.Fin? && min.Fin? && max.Fin? ==> (r.status <==> min.r < value.r <= max.r)
    ensures r.comment == RangeComment(show, value, min, max, "(", "]")
  {
    ReturnStatus(RangeComment(show, value, min, max, "(", "]"), Gt(value, min) && Le(value, max))
  }

  /** `in_range_closed_closed`: value in [min, max] */
  function InRangeClosedClosed(show: Float -> string, value: Float, min: Float, max: Float): (r: ReturnStatus)
    ensures value.NaN? || min.NaN? || max.NaN? ==> !r.status
    ensures value.Fin? && min.Fin? && max.Fin? ==> (r.status <==> min.r <= value.r <= max.r)
    ensures r.comment == RangeComment(show, value, min, max, "[", "]")
  {
    ReturnStatus(RangeComment(show, value, min, max, "[", "]"), Ge(value, min) && Le(value, max))
  }

  /** `in_range_closed_closed` on `size_t`, where `std::to_string` writes the decimal digits. */
  function InRangeClosedClosedSize(value: SizeT, min: SizeT, max: SizeT): (r: ReturnStatus)
    ensures r.status <==> min <= value <= max
    ensures r.comment == NatToString(value) + " must be inside the range [" + NatToString(min) + ", "
                         + NatToString(max) + "]"
  {
    ReturnStatus(
      NatToString(value) + " must be inside the range [" + NatToString(min) + ", " + NatToString(max) + "]",
      value >= min && value <= max)
  }

  /**
   * An infinite value lies outside every interval with a finite bound on its
   * side, so it fails all four checks.
   */
  lemma InfinityOutsideFiniteBounds(show: Float -> string, value: Float, min: Float, max: Float)
    requires (value.PosInf? && max.Fin?) || (value.NegInf? && min.Fin?)
    ensures !InRangeOpenOpen(show, value, min, max).status
    ensures !InRangeClosedOpen(show, value, min, max).status
    ensures !InRangeOpenClosed(show, value, min, max).status
    ensures !InRangeClosedClosed(show, value, min, max).status
  {
  }

  /**
   * For `min < max`, the lower bound passes exactly the checks closed below,
   * and the upper bound exactly those closed above.
   */
  lemma BoundsPassOnlyWhenClosed(show: Float -> string, min: Float, max: Float)
    requires Lt(min, max)
    ensures !InRangeOpenOpen(show, min, min, max).status && !InRangeOpenOpen(show, max, min, max).status
    ensures InRangeClosedOpen(show, min, min, max).status && !InRangeClosedOpen(show, max, min, max).status
    ensures !InRangeOpenClosed(show, min, min, max).status && InRangeOpenClosed(show, max, min, max).status
    ensures InRangeClosedClosed(show, min, min, max).status && InRangeClosedClosed(show, max, min, max).status
  {
  }

  /** The open interval lies in both half-open ones, and each of those in the closed one. */
  lemma Containment(show: Float -> string, value: Float, min: Float, max: Float)
    ensures InRangeOpenOpen(show, value, min, max).status ==> InRangeClosedOpen(show, value, min, max).status
    ensures InRangeOpenOpen(show, value, min, max).status ==> InRangeOpenClosed(show, value, min, max).status
    ensures InRangeClosedOpen(show, value, min, max).status ==> InRangeClosedClosed(show, value, min, max).status
    ensures InRangeOpenClosed(show, value, min, max).status ==> InRangeClosedClosed(show, value, min, max).status
  {
  }

  /**
   * Against infinite bounds the checks test finiteness: (-inf, inf) holds
   * exactly for finite values, and the half-infinite intervals test the sign.
   */
  lemma InfiniteBounds(show: Float -> string, value: Float, bound: real)
    ensures InRangeOpenOpen(show, value, NegInf, PosInf).status <==> value.Fin?
    ensures InRangeClosedOpen(show, value, Fin(bound), PosInf).status <==> value.Fin? && value.r >= bound
    ensures InRangeOpenOpen(show, value, Fin(bound), PosInf).status <==> value.Fin? && value.r > bound
    ensures InRangeOpenOpen(show, value, NegInf, Fin(bound)).status <==> value.Fin? && value.r < bound
  {
  }

  /** The `size_t` check decides the same as the floating-point one on the same numbers. */
  lemma SizeCheckAgrees(show: Float -> string, value: SizeT, min: SizeT, max: SizeT)
    ensures InRangeClosedClosedSize(value, min, max).status
        <==> InRangeClosedClosed(show, Fin(value as real), Fin(min as real), Fin(max as real)).status
  {
  }

  /**
   * The expectations of the range-check tests over (-1, 1) and its half-open
   * and closed variants: interior points pass, +-10, NaN and infinity fail, and
   * each bound passes exactly the checks closed on its side.
   */
  lemma RangeTestCases(show: Float -> string, v: real)
    ensures v in {0.0, 0.5, -0.5} ==>
      && InRangeOpenOpen(show, Fin(v), Fin(-1.0), Fin(1.0)).status
      && InRangeClosedOpen(show, Fin(v), Fin(-1.0), Fin(1.0)).status
      && InRangeOpenClosed(show, Fin(v), Fin(-1.0), Fin(1.0)).status
      && InRangeClosedClosed(show, Fin(v), Fin(-1.0), Fin(1.0)).status
    ensures forall x :: x in {Fin(10.0), Fin(-10.0), NaN, PosInf} ==>
      && !InRangeOpenOpen(show, x, Fin(-1.0), Fin(1.0)).status
      && !InRangeClosedOpen(show, x, Fin(-1.0), Fin(1.0)).status
      && !InRangeOpenClosed(show, x, Fin(-1.0), Fin(1.0)).status
      && !InRangeClosedClosed(show, x, Fin(-1.0), Fin(1.0)).status
    ensures !InRangeOpenOpen(show, Fin(1.0), Fin(-1.0), Fin(1.0)).status
    ensures !InRangeOpenOpen(show, Fin(-1.0), Fin(-1.0), Fin(1.0)).status
    ensures !InRangeClosedOpen(show, Fin(1.0), Fin(-1.0), Fin(1.0)).status
    ensures InRangeClosedOpen(show, Fin(-1.0), Fin(-1.0), Fin(1.0)).status
    ensures InRangeOpenClosed(show, Fin(1.0), Fin(-1.0), Fin(1.0)).status
    ensures !InRangeOpenClosed(show, Fin(-1.0), Fin(-1.0), Fin(1.0)).status
    ensures InRangeClosedClosed(show, Fin(1.0), Fin(-1.0), Fin(1.0)).status
    ensures InRangeClosedClosed(show, Fin(-1.0), Fin(-1.0), Fin(1.0)).status
  {
  }
}
