/**
 * The older accept/reject decision of `steppers::util`: no clipping and no
 * NaN guard, and the proposed and current values are taken by value.
 */
module StepperUtil {
  import opened Floats

  /** The kept value together with the unclipped log-ratio. */
  datatype MetroplisUpdate<M> = Accepted(value: M, logAlpha: Float) | Rejected(value: M, logAlpha: Float)

  /** `metropolis_select` with ln(u) given as `lnU`: accept exactly when ln(u) < delta. */
  function MetropolisSelect<M>(lnU: Float, delta: Float, proposed: M, current: M): (r: MetroplisUpdate<M>)
    ensures r.Accepted? <==> Less(lnU, delta)
    ensures r.logAlpha == delta
    ensures r.Accepted? ==> r.value == proposed
    ensures r.Rejected? ==> r.value == current
  {
    if Less(lnU, delta) then Accepted(proposed, delta) else Rejected(current, delta)
  }

  /** With u in [0, 1), ln(u) < 0, so every non-negative log-ratio is accepted. */
  lemma NonNegativeDeltaAccepted<M>(lnU: Float, delta: Float, proposed: M, current: M)
    requires IsLogUniform(lnU)
    requires !IsNan(delta) && !Less(delta, Zero)
    ensures MetropolisSelect(lnU, delta, proposed, current).Accepted?
  {
  }

  /** A NaN log-ratio is always rejected, since every comparison with NaN is false. */
  lemma NanRejected<M>(lnU: Float, proposed: M, current: M)
    ensures MetropolisSelect(lnU, NaN, proposed, current) == Rejected(current, NaN)
  {
  }
}
