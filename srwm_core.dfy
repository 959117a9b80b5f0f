/**
 * The scoring half of a random-walk Metropolis step, which every SRWM
 * revision performs in the same order: read the current value, reuse or
 * compute the current log-likelihood and log-prior, put the proposed value
 * into a copy of the model, map a NaN proposed prior to minus infinity (every
 * revision but the discrete ones), call
 * the log-likelihood on the proposal only when that prior is finite, and form
 * the log acceptance ratio. The revisions differ in the accept/reject
 * primitive they then call and in what they return.
 */
module SrwmCore {
  import opened Floats
  import opened Outcomes
  import opened Lenses
  import opened Parameters

  /** The two cached scores of a stepper: log-likelihood and log-prior of its last accepted state. */
  datatype Caches = Caches(ll: Option<Float>, prior: Option<Float>)

  const Empty: Caches := Caches(None, None)

  /**
   * What the scoring half computes. `evaluated` lists the models the
   * log-likelihood was called on, in call order.
   */
  datatype Scored<T, M> = Scored(
    current: T, currentLl: Float, currentPrior: Float,
    proposedModel: M, proposedPrior: Float, proposedLl: Option<Float>,
    logAlpha: Float, evaluated: seq<M>)

  /** The score of the proposal: log-likelihood plus log-prior, or the prior alone when no likelihood was computed. */
  function ProposedScore(prior: Float, ll: Option<Float>): Float {
    match ll
    case Some(l) => Add(l, prior)
    case None => prior
  }

  /**
   * The scoring half of `step_with_log_likelihood`. `supplied` is the
   * log-likelihood argument, `cachedPrior` the stepper's cached prior,
   * `proposed` the value drawn from the proposal distribution, and
   * `mapNanPrior` and `mapNanLl` whether the revision turns a NaN proposed
   * log-prior and log-likelihood into minus infinity.
   */
  function Score<T(!new), M(!new)>(p: Parameter<T, M>, like: M -> Float, cachedPrior: Option<Float>,
                                  model: M, supplied: Option<Float>, proposed: T, mapNanPrior: bool, mapNanLl: bool): (s: Scored<T, M>)
    ensures s.current == p.lens.Get(model)
    ensures s.currentLl == (if supplied.Some? then supplied.value else like(model))
    ensures s.currentPrior == (if cachedPrior.Some? then cachedPrior.value else p.prior.lnF(s.current))
    ensures s.proposedModel == p.lens.Set(model, proposed)
    ensures mapNanPrior ==> !s.proposedPrior.NaN?
    ensures mapNanPrior && p.prior.lnF(proposed).NaN? ==> s.proposedPrior == NegInf
    ensures !mapNanPrior || !p.prior.lnF(proposed).NaN? ==> s.proposedPrior == p.prior.lnF(proposed)
    ensures s.proposedLl.Some? <==> s.proposedPrior.Finite?
    ensures s.proposedLl.Some? && !mapNanLl ==> s.proposedLl.value == like(s.proposedModel)
    ensures s.proposedLl.Some? && mapNanLl ==> s.proposedLl.value == NanToNegInf(like(s.proposedModel))
    ensures s.logAlpha == Sub(ProposedScore(s.proposedPrior, s.proposedLl), Add(s.currentLl, s.currentPrior))
    ensures |s.evaluated| == (if supplied.None? then 1 else 0) + (if s.proposedPrior.Finite? then 1 else 0)
    ensures supplied.None? ==> s.evaluated[0] == model
    ensures s.proposedPrior.Finite? ==> s.evaluated[|s.evaluated| - 1] == s.proposedModel
  {
    var current := p.lens.Get(model);
    var currentLl := if supplied.Some? then supplied.value else like(model);
    var currentPrior := if cachedPrior.Some? then cachedPrior.value else p.prior.lnF(current);
    var proposedModel := p.lens.Set(model, proposed);
    var proposedPrior := if mapNanPrior then NanToNegInf(p.prior.lnF(proposed)) else p.prior.lnF(proposed);
    var proposedLl :=
      if proposedPrior.Finite? then
        Some(if mapNanLl then NanToNegInf(like(proposedModel)) else like(proposedModel))
      else None;
    var evaluated := (if supplied.None? then [model] else []) + (if proposedPrior.Finite? then [proposedModel] else []);
    Scored(current, currentLl, currentPrior, proposedModel, proposedPrior, proposedLl,
           Sub(ProposedScore(proposedPrior, proposedLl), Add(currentLl, currentPrior)), evaluated)
  }

  /**
   * A proposal outside the prior's support (log-prior NaN or minus infinity)
   * from a state with a finite score gets a log-ratio of minus infinity, and
   * the log-likelihood is never called on it.
   */
  lemma OutOfSupportRatio<T(!new), M(!new)>(p: Parameter<T, M>, like: M -> Float, cachedPrior: Option<Float>,
                                           model: M, supplied: Option<Float>, proposed: T, mapNanPrior: bool, mapNanLl: bool)
    requires var l := p.prior.lnF(proposed); (mapNanPrior && l.NaN?) || l.NegInf?
    ensures var s := Score(p, like, cachedPrior, model, supplied, proposed, mapNanPrior, mapNanLl);
      s.proposedLl.None? && |s.evaluated| == (if supplied.None? then 1 else 0) &&
      (Add(s.currentLl, s.currentPrior).Finite? ==> s.logAlpha == NegInf)
  {
  }

  /**
   * A state whose score is minus infinity, facing a proposal that is also
   * outside the support, gets a NaN log-ratio (minus infinity minus minus
   * infinity).
   */
  lemma BothOutOfSupportRatio<T(!new), M(!new)>(p: Parameter<T, M>, like: M -> Float, cachedPrior: Option<Float>,
                                               model: M, supplied: Option<Float>, proposed: T, mapNanPrior: bool, mapNanLl: bool)
    requires var l := p.prior.lnF(proposed); (mapNanPrior && l.NaN?) || l.NegInf?
    requires var s := Score(p, like, cachedPrior, model, supplied, proposed, mapNanPrior, mapNanLl);
      Add(s.currentLl, s.currentPrior) == NegInf
    ensures Score(p, like, cachedPrior, model, supplied, proposed, mapNanPrior, mapNanLl).logAlpha == NaN
  {
  }

  /** `ModelAndLikelihood` of the older revisions: the model and, when it was computed, its log-likelihood. */
  datatype ModelAndLikelihood<M> = ModelAndLikelihood(model: M, ll: Option<Float>)

  /** What a step returns and caches. */
  datatype Stepped<M> = Stepped(model: M, ll: Float, caches: Caches)

  /**
   * The returning half of the SRWM revisions that return a bare `f64`: an
   * accepted proposal is returned and cached with its log-likelihood, which
   * `unwrap` demands; a rejected one returns the input model with the
   * current log-likelihood and leaves the caches alone.
   */
  function Conclude<T, M>(s: Scored<T, M>, accepted: bool, model: M, caches: Caches): (r: Fallible<Stepped<M>>)
    ensures !accepted ==> r == Done(Stepped(model, s.currentLl, caches))
    ensures accepted && s.proposedLl.None? ==> r == Abort(UnwrapNone)
    ensures accepted && s.proposedLl.Some? ==>
      r == Done(Stepped(s.proposedModel, s.proposedLl.value, Caches(s.proposedLl, Some(s.proposedPrior))))
  {
    if !accepted then Done(Stepped(model, s.currentLl, caches))
    else match s.proposedLl
      case None => Abort(UnwrapNone)
      case Some(ll) => Done(Stepped(s.proposedModel, ll, Caches(Some(ll), Some(s.proposedPrior))))
  }

  /** Through a lawful lens, an accepted step returns a model holding the proposed value. */
  lemma AcceptedHoldsProposal<T(!new), M(!new)>(p: Parameter<T, M>, like: M -> Float, cachedPrior: Option<Float>,
                                               model: M, supplied: Option<Float>, proposed: T, mapNanPrior: bool, mapNanLl: bool,
                                               caches: Caches)
    requires GetSet(p.lens)
    requires Conclude(Score(p, like, cachedPrior, model, supplied, proposed, mapNanPrior, mapNanLl), true, model, caches).Done?
    ensures p.lens.Get(Conclude(Score(p, like, cachedPrior, model, supplied, proposed, mapNanPrior, mapNanLl), true, model, caches).value.model) == proposed
  {
  }
}
