/**
 * The Metropolis accept/reject decision of `metropolis_hastings_utils`. The
 * uniform draw u is given through `lnU`, its logarithm, so the decision is a
 * total function of its inputs.
 */
module MetropolisHastingsUtils {
  import opened Floats
  import opened Outcomes

  /** The outcome of a decision: the value kept and the clipped log acceptance ratio. */
  datatype MetropolisUpdate<M> = Accepted(value: M, logAlpha: Float) | Rejected(value: M, logAlpha: Float)

  /**
   * A NaN log-ratio is refused by an assert. Otherwise the log-ratio is
   * clipped at 0; a clipped value of 0 accepts without looking at u, and any
   * other accepts exactly when ln(u) < delta.
   */
  function MetropolisSelect<M>(lnU: Float, delta: Float, proposed: M, current: M): (r: Fallible<MetropolisUpdate<M>>)
    ensures r.Abort? <==> IsNan(delta)
    ensures r.Abort? ==> r.cause == NanLogRatio
    ensures r.Done? ==> r.value.logAlpha == MinZero(delta)
    ensures r.Done? ==> (r.value.Accepted? ==> r.value.value == proposed) && (r.value.Rejected? ==> r.value.value == current)
    ensures r.Done? && !Less(delta, Zero) ==> r.value.Accepted?
    ensures Less(delta, Zero) ==> r.Done? && (r.value.Accepted? <==> Less(lnU, delta))
  {
    if IsNan(delta) then Abort(NanLogRatio)
    else
      var lll := MinZero(delta);
      if lll == Zero || Less(lnU, delta) then Done(Accepted(proposed, lll))
      else Done(Rejected(current, lll))
  }

  /** The carried log acceptance ratio is never positive and never NaN. */
  lemma CarriedLogAlphaNotPositive<M>(lnU: Float, delta: Float, proposed: M, current: M)
    requires !IsNan(delta)
    ensures var r := MetropolisSelect(lnU, delta, proposed, current);
      r.Done? && !r.value.logAlpha.NaN? && !Less(Zero, r.value.logAlpha)
  {
  }

  /** A move to an impossible state (delta = -infinity) is never accepted, whatever u is. */
  lemma NegInfNeverAccepted<M>(lnU: Float, proposed: M, current: M)
    ensures MetropolisSelect(lnU, NegInf, proposed, current) == Done(Rejected(current, NegInf))
  {
  }

  /** For a fixed u, raising the log-ratio never turns an acceptance into a rejection. */
  lemma AcceptanceMonotone<M>(lnU: Float, d1: Float, d2: Float, proposed: M, current: M)
    requires !IsNan(d1) && !IsNan(d2) && (Less(d1, d2) || d1 == d2)
    requires MetropolisSelect(lnU, d1, proposed, current).value.Accepted?
    ensures MetropolisSelect(lnU, d2, proposed, current).value.Accepted?
  {
  }
}
