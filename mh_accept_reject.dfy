/**
 * The accept/reject decision of `helpers::mh_accept_reject`: the same clipping
 * rule as `metropolis_hastings_utils`, without its NaN assert.
 */
module MhAcceptReject {
  import opened Floats

  /** The value kept by a decision together with the clipped log acceptance ratio. */
  datatype MHStatus<M> = Accepted(value: M, logAlpha: Float) | Rejected(value: M, logAlpha: Float)

  /**
   * `metropolis_proposal` with ln(u) given as `lnU`. `f64::min(NaN, 0.0)` is
   * 0, so a NaN log-ratio is accepted.
   */
  function MetropolisProposal<M>(lnU: Float, delta: Float, proposed: M, current: M): (r: MHStatus<M>)
    ensures r.logAlpha == MinZero(delta)
    ensures r.Accepted? ==> r.value == proposed
    ensures r.Rejected? ==> r.value == current
    ensures !Less(delta, Zero) ==> r.Accepted?
    ensures IsNan(delta) ==> r == Accepted(proposed, Zero)
    ensures Less(delta, Zero) ==> (r.Accepted? <==> Less(lnU, delta))
  {
    var lll := MinZero(delta);
    if lll == Zero || Less(lnU, delta) then Accepted(proposed, lll)
    else Rejected(current, lll)
  }

  /** Whatever the log-ratio, the carried value is 0 or negative, never NaN. */
  lemma CarriedLogAlphaNotPositive<M>(lnU: Float, delta: Float, proposed: M, current: M)
    ensures var r := MetropolisProposal(lnU, delta, proposed, current);
      !r.logAlpha.NaN? && !Less(Zero, r.logAlpha)
  {
  }

  /** Raising a non-NaN log-ratio never turns an acceptance into a rejection. */
  lemma AcceptanceMonotone<M>(lnU: Float, d1: Float, d2: Float, proposed: M, current: M)
    requires !IsNan(d1) && !IsNan(d2) && (Less(d1, d2) || d1 == d2)
    requires MetropolisProposal(lnU, d1, proposed, current).Accepted?
    ensures MetropolisProposal(lnU, d2, proposed, current).Accepted?
  {
  }
}
