/**
 * The oldest SRWM stepper, `srwm.rs`. It scores proposals as the later
 * revisions do, decides with the unclipped `util::metropolis_select`, hands
 * that decision to an `adaptor` global adaptor, and returns the new
 * log-likelihood as an option instead of unwrapping it. The Gaussian
 * proposal is built with `unwrap`, which panics on a scale that is not
 * positive.
 */
module SrwmOld {
  import opened Floats
  import opened Outcomes
  import opened Parameters
  import Lenses
  import opened AdaptationModes
  import opened SrwmCore
  import GA = AdaptorGlobal
  import SU = StepperUtil
  import MHU = MetropolisHastingsUtils

  datatype Outcome<M> = Outcome(result: ModelAndLikelihood<M>, caches: Caches, adaptor: GA.GlobalState)

  /**
   * The adaptor takes the older decision in the shape of its own update
   * type: the same value and the same, unclipped, log-ratio.
   */
  function AsAdaptorUpdate(u: SU.MetroplisUpdate<real>): (v: MHU.MetropolisUpdate<real>)
    ensures v.value == u.value && v.logAlpha == u.logAlpha && (v.Accepted? <==> u.Accepted?)
  {
    match u
    case Accepted(x, a) => MHU.Accepted(x, a)
    case Rejected(x, a) => MHU.Rejected(x, a)
  }

  /** One `step_with_loglikelihood` of the older stepper with caches `caches` and adaptor state `a`. */
  function Transition<M(!new)>(num: Numerics, p: Parameter<real, M>, like: M -> Float,
                              caches: Caches, a: GA.GlobalState,
                              model: M, supplied: Option<Float>, proposed: real, lnU: Float): (r: Fallible<Outcome<M>>)
    requires num.Valid()
    ensures a.proposalScale <= 0.0 ==> r == Abort(ScaleNotPositive)
  {
    if a.proposalScale <= 0.0 then Abort(ScaleNotPositive)
    else
      var s := Score(p, like, caches.prior, model, supplied, proposed, true, false);
      var u := SU.MetropolisSelect(lnU, s.logAlpha, proposed, s.current);
      match GA.Advance(num, a, u.value, u.logAlpha)
      case Abort(c) => Abort(c)
      case Done(adapted) =>
        match u
        case Accepted(_, _) =>
          Done(Outcome(ModelAndLikelihood(s.proposedModel, s.proposedLl),
                       Caches(s.proposedLl, Some(s.proposedPrior)), adapted))
        case Rejected(_, _) =>
          Done(Outcome(ModelAndLikelihood(model, Some(s.currentLl)), caches, adapted))
  }

  /**
   * With adaptation off, the older step never panics once the scale is
   * positive; an out-of-support proposal from a finite-score state is
   * rejected and returns the input model with its log-likelihood.
   */
  lemma UnadaptedStep<M(!new)>(num: Numerics, p: Parameter<real, M>, like: M -> Float,
                              caches: Caches, a: GA.GlobalState,
                              model: M, supplied: Option<Float>, proposed: real, lnU: Float)
    requires num.Valid()
    requires a.proposalScale > 0.0 && !a.enabled
    requires IsLogUniform(lnU)
    ensures var r := Transition(num, p, like, caches, a, model, supplied, proposed, lnU);
      var s := Score(p, like, caches.prior, model, supplied, proposed, true, false);
      r.Done? && r.value.adaptor == a &&
      ((p.prior.lnF(proposed).NaN? || p.prior.lnF(proposed).NegInf?) && Add(s.currentLl, s.currentPrior).Finite? ==>
         r.value.result == ModelAndLikelihood(model, Some(s.currentLl)) && r.value.caches == caches)
  {
    var s := Score(p, like, caches.prior, model, supplied, proposed, true, false);
    if p.prior.lnF(proposed).NaN? || p.prior.lnF(proposed).NegInf? {
      OutOfSupportRatio(p, like, caches.prior, model, supplied, proposed, true, false);
    }
  }

  /**
   * Leaving a state whose score is minus infinity for a proposal with a
   * finite score gives a log-ratio of plus infinity. The unclipped decision
   * accepts it and passes it on, so an enabled adaptor with a positive
   * variance estimate fails its assert: the older stepper panics on the move
   * back into the support while adapting.
   */
  lemma EnteringSupportPanicsWhileAdapting<M(!new)>(num: Numerics, p: Parameter<real, M>, like: M -> Float,
                                                   caches: Caches, a: GA.GlobalState,
                                                   model: M, supplied: Option<Float>, proposed: real, lnU: Float)
    requires num.Valid()
    requires a.proposalScale > 0.0 && a.enabled && a.scale > 0.0
    requires IsLogUniform(lnU)
    requires p.prior.lnF(proposed).Finite? && like(p.lens.Set(model, proposed)).Finite?
    requires var s := Score(p, like, caches.prior, model, supplied, proposed, true, false);
      Add(s.currentLl, s.currentPrior) == NegInf
    ensures Transition(num, p, like, caches, a, model, supplied, proposed, lnU) == Abort(AdaptedScaleInvalid)
  {
    var s := Score(p, like, caches.prior, model, supplied, proposed, true, false);
    assert s.logAlpha == PosInf;
    var u := SU.MetropolisSelect(lnU, s.logAlpha, proposed, s.current);
    GA.InfiniteLogAlphaPanics(num, a.logLambda, a.mu, a.scale, a.step, a.targetAlpha, u.value);
  }

  /**
   * Between two states of finite score the older step never panics while
   * the variance estimate is positive. It accepts exactly when ln(u) is
   * below the log-ratio, and the adaptor advances on the unclipped ratio.
   * An acceptance returns `lens.set(model, proposed)` with its own
   * log-likelihood and caches the proposal's scores. A rejection returns the
   * input model with the current log-likelihood and keeps the caches.
   */
  lemma InSupportStep<M(!new)>(num: Numerics, p: Parameter<real, M>, like: M -> Float,
                              caches: Caches, a: GA.GlobalState,
                              model: M, supplied: Option<Float>, proposed: real, lnU: Float)
    requires num.Valid()
    requires a.proposalScale > 0.0 && (!a.enabled || a.scale > 0.0)
    requires p.prior.lnF(proposed).Finite? && like(p.lens.Set(model, proposed)).Finite?
    requires var s := Score(p, like, caches.prior, model, supplied, proposed, true, false);
      Add(s.currentLl, s.currentPrior).Finite?
    ensures var r := Transition(num, p, like, caches, a, model, supplied, proposed, lnU);
      var s := Score(p, like, caches.prior, model, supplied, proposed, true, false);
      var u := SU.MetropolisSelect(lnU, s.logAlpha, proposed, s.current);
      var pm := p.lens.Set(model, proposed);
      r.Done? &&
      (u.Accepted? <==> Less(lnU, s.logAlpha)) &&
      r.value.adaptor == GA.Advance(num, a, u.value, s.logAlpha).value &&
      (u.Accepted? ==> r.value.result == ModelAndLikelihood(pm, Some(like(pm))) &&
                       r.value.caches == Caches(Some(like(pm)), Some(p.prior.lnF(proposed)))) &&
      (u.Rejected? ==> r.value.result == ModelAndLikelihood(model, Some(s.currentLl)) &&
                       r.value.caches == caches)
  {
    var s := Score(p, like, caches.prior, model, supplied, proposed, true, false);
    var u := SU.MetropolisSelect(lnU, s.logAlpha, proposed, s.current);
    if a.enabled {
      GA.AssertHolds(num, a.logLambda, a.mu, a.scale, a.step, a.targetAlpha, u.value, s.logAlpha);
    }
  }

  /**
   * From a state whose score is minus infinity, a proposal outside the
   * support gives a NaN log-ratio. The unclipped decision rejects it but
   * passes the NaN on, so an enabled adaptor fails its assert.
   */
  lemma BothOutOfSupportPanicsWhileAdapting<M(!new)>(num: Numerics, p: Parameter<real, M>, like: M -> Float,
                                                    caches: Caches, a: GA.GlobalState,
                                                    model: M, supplied: Option<Float>, proposed: real, lnU: Float)
    requires num.Valid()
    requires a.proposalScale > 0.0 && a.enabled
    requires var l := p.prior.lnF(proposed); l.NaN? || l.NegInf?
    requires var s := Score(p, like, caches.prior, model, supplied, proposed, true, false);
      Add(s.currentLl, s.currentPrior) == NegInf
    ensures var s := Score(p, like, caches.prior, model, supplied, proposed, true, false);
      SU.MetropolisSelect(lnU, s.logAlpha, proposed, s.current).Rejected?
    ensures Transition(num, p, like, caches, a, model, supplied, proposed, lnU) == Abort(AdaptedScaleInvalid)
  {
    var s := Score(p, like, caches.prior, model, supplied, proposed, true, false);
    BothOutOfSupportRatio(p, like, caches.prior, model, supplied, proposed, true, false);
    var u := SU.MetropolisSelect(lnU, s.logAlpha, proposed, s.current);
    GA.NanLogAlphaPanics(num, a.logLambda, a.mu, a.scale, a.step, a.targetAlpha, u.value);
  }

  class Srwm<M(!new)> {
    const parameter: Parameter<real, M>
    const loglikelihood: M -> Float
    var currentLoglikelihoodScore: Option<Float>
    var currentPriorScore: Option<Float>
    const adaptor: GA.GlobalAdaptor

    function Cached(): Caches
      reads this
    {
      Caches(currentLoglikelihoodScore, currentPriorScore)
    }

    constructor Init(parameter: Parameter<real, M>, loglikelihood: M -> Float, adaptor: GA.GlobalAdaptor)
      ensures this.parameter == parameter && this.loglikelihood == loglikelihood && this.adaptor == adaptor
      ensures Cached() == Empty
    {
      this.parameter := parameter;
      this.loglikelihood := loglikelihood;
      currentLoglikelihoodScore := None;
      currentPriorScore := None;
      this.adaptor := adaptor;
    }

    /**
     * `SRWM::new`: `None` when the prior has no variance or no mean;
     * otherwise an adaptor centred on the prior's mean and variance, with
     * proposal scale 1 unless one is given.
     */
    static method New(parameter: Parameter<real, M>, loglikelihood: M -> Float, proposalScale: Option<real>)
      returns (r: Option<Srwm<M>>)
      ensures parameter.prior.variance.None? || parameter.prior.mean.None? ==> r.None?
      ensures parameter.prior.variance.Some? && parameter.prior.mean.Some? ==>
        r.Some? && fresh(r.value) && fresh(r.value.adaptor) &&
        r.value.parameter == parameter && r.value.loglikelihood == loglikelihood && r.value.Cached() == Empty &&
        r.value.adaptor.Fields() == GA.NewState(if proposalScale.Some? then proposalScale.value else 1.0,
                                                parameter.prior.mean.value, parameter.prior.variance.value)
    {
      if parameter.prior.variance.None? || parameter.prior.mean.None? {
        return None;
      }
      var scale := if proposalScale.Some? then proposalScale.value else 1.0;
      var adaptor := new GA.GlobalAdaptor(scale, parameter.prior.mean.value, parameter.prior.variance.value);
      var s := new Srwm.Init(parameter, loglikelihood, adaptor);
      return Some(s);
    }

    /** `SRWM::new_with_mean_variance`: always `Some`, with the given scale, mean and variance. */
    static method NewWithMeanVariance(parameter: Parameter<real, M>, loglikelihood: M -> Float,
                                      proposalScale: real, priorMean: real, priorVariance: real)
      returns (r: Option<Srwm<M>>)
      ensures r.Some? && fresh(r.value) && fresh(r.value.adaptor)
      ensures r.value.parameter == parameter && r.value.loglikelihood == loglikelihood && r.value.Cached() == Empty
      ensures r.value.adaptor.Fields() == GA.NewState(proposalScale, priorMean, priorVariance)
    {
      var adaptor := new GA.GlobalAdaptor(proposalScale, priorMean, priorVariance);
      var s := new Srwm.Init(parameter, loglikelihood, adaptor);
      return Some(s);
    }

    method SetAdapt(mode: AdaptationMode)
      modifies adaptor
      ensures adaptor.Fields() == old(adaptor.Fields()).(enabled := mode == AdaptationMode.Enabled)
    {
      adaptor.SetMode(mode);
    }

    function GetAdapt(): (r: AdaptationStatus)
      reads adaptor
      ensures (r == AdaptationStatus.Enabled <==> adaptor.enabled) && (r == AdaptationStatus.Disabled <==> !adaptor.enabled)
    {
      adaptor.Mode()
    }

    /** `reset`: both caches cleared and the adaptor reset. */
    method Reset()
      modifies this, adaptor
      ensures Cached() == Empty && adaptor.Fields() == GA.ResetState(old(adaptor.Fields()))
    {
      currentLoglikelihoodScore := None;
      currentPriorScore := None;
      adaptor.Reset();
    }

    method StepWithLoglikelihood(num: Numerics, model: M, loglikelihoodIn: Option<Float>, proposed: real, lnU: Float)
      returns (r: Fallible<ModelAndLikelihood<M>>)
      requires num.Valid()
      modifies this, adaptor
      ensures match Transition(num, parameter, loglikelihood, old(Cached()), old(adaptor.Fields()),
                               model, loglikelihoodIn, proposed, lnU)
        case Done(o) => r == Done(o.result) && Cached() == o.caches && adaptor.Fields() == o.adaptor
        case Abort(c) => r == Abort(c)
    {
      var s := Score(parameter, loglikelihood, currentPriorScore, model, loglikelihoodIn, proposed, true, false);
      if !(adaptor.Scale() > 0.0) {
        return Abort(ScaleNotPositive);
      }
      var update := SU.MetropolisSelect(lnU, s.logAlpha, proposed, s.current);
      var adapted := adaptor.Update(num, AsAdaptorUpdate(update));
      if adapted.Abort? {
        return Abort(adapted.cause);
      }
      match update
      case Accepted(_, _) =>
        currentLoglikelihoodScore := s.proposedLl;
        currentPriorScore := Some(s.proposedPrior);
        return Done(ModelAndLikelihood(s.proposedModel, s.proposedLl));
      case Rejected(_, _) =>
        return Done(ModelAndLikelihood(model, Some(s.currentLl)));
    }

    method Step(num: Numerics, model: M, proposed: real, lnU: Float) returns (r: Fallible<M>)
      requires num.Valid()
      modifies this, adaptor
      ensures match Transition(num, parameter, loglikelihood, old(Cached()), old(adaptor.Fields()),
                               model, old(currentLoglikelihoodScore), proposed, lnU)
        case Done(o) => r == Done(o.result.model) && Cached() == o.caches && adaptor.Fields() == o.adaptor
        case Abort(c) => r == Abort(c)
    {
      var stepped := StepWithLoglikelihood(num, model, currentLoglikelihoodScore, proposed, lnU);
      match stepped
      case Done(ml) => r := Done(ml.model);
      case Abort(c) => r := Abort(c);
    }

    /** `prior_draw`: the parameter's prior draw put into the model. */
    function PriorDraw(model: M, seed: Seed): (r: M)
      ensures Lenses.GetSet(parameter.lens) ==> parameter.lens.Get(r) == parameter.prior.sample(seed)
      ensures Lenses.Lawful(parameter.lens) ==> parameter.lens.Set(r, parameter.lens.Get(model)) == model
    {
      parameter.Draw(model, seed)
    }
  }
}
