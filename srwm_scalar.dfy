/**
 * The SRWM stepper of `srwm/stepper/mod.rs` with the scalar step of
 * `srwm/stepper/scalar.rs`: Gaussian proposals around the current value
 * whose scale is the proposal scale of an `adaptors` global adaptor. The
 * proposed value, drawn from that Gaussian, and ln(u) for the
 * accept/reject decision are inputs.
 */
module SrwmScalar {
  import opened Floats
  import opened Outcomes
  import opened Lenses
  import opened Parameters
  import opened AdaptStates
  import opened SrwmCore
  import AG = AdaptorsGlobal
  import RM = AdaptorGlobal
  import MHS = MhAcceptReject

  /** What a step returns and caches, and the adaptor after its one update. */
  datatype Outcome<M> = Outcome(stepped: Stepped<M>, adaptor: AG.GlobalState)

  /**
   * One `step_with_log_likelihood` of a scalar SRWM stepper with caches
   * `caches` and adaptor state `a`. `mapNanLl` says whether a NaN proposed
   * log-likelihood becomes minus infinity, as `scalar.rs` does and
   * `srwm/stepper.rs` does not.
   */
  function Transition<M(!new)>(num: Numerics, p: Parameter<real, M>, like: M -> Float, mapNanLl: bool,
                              caches: Caches, a: AG.GlobalState,
                              model: M, supplied: Option<Float>, proposed: real, lnU: Float): (r: Fallible<Outcome<M>>)
    requires num.Valid()
    ensures a.proposalScale <= 0.0 ==> r == Abort(ScaleNotPositive)
  {
    if a.proposalScale <= 0.0 then Abort(ScaleNotPositive)
    else
      var s := Score(p, like, caches.prior, model, supplied, proposed, true, mapNanLl);
      var u := MHS.MetropolisProposal(lnU, s.logAlpha, proposed, s.current);
      match AG.Advance(num, a, u.value, u.logAlpha)
      case Abort(c) => Abort(c)
      case Done(adapted) =>
        match Conclude(s, u.Accepted?, model, caches)
        case Done(st) => Done(Outcome(st, adapted))
        case Abort(c) => Abort(c)
  }

  /**
   * With a positive proposal scale, and a positive variance estimate while
   * adaptation is on, a step whose proposal lies in the prior's support
   * never panics: the adaptor sees a clipped log-ratio, and an accepted
   * proposal has a log-likelihood. A rejected step returns the input model
   * and leaves the caches alone; an accepted one returns and caches the
   * proposal's scores.
   */
  lemma InSupportStep<M(!new)>(num: Numerics, p: Parameter<real, M>, like: M -> Float, mapNanLl: bool,
                              caches: Caches, a: AG.GlobalState,
                              model: M, supplied: Option<Float>, proposed: real, lnU: Float)
    requires num.Valid()
    requires a.proposalScale > 0.0 && (!a.enabled || a.scale > 0.0)
    requires NanToNegInf(p.prior.lnF(proposed)).Finite?
    ensures var r := Transition(num, p, like, mapNanLl, caches, a, model, supplied, proposed, lnU);
      var s := Score(p, like, caches.prior, model, supplied, proposed, true, mapNanLl);
      var u := MHS.MetropolisProposal(lnU, s.logAlpha, proposed, s.current);
      r.Done? &&
      r.value.adaptor == AG.Advance(num, a, u.value, u.logAlpha).value &&
      (u.Rejected? ==> r.value.stepped == Stepped(model, s.currentLl, caches)) &&
      (u.Accepted? ==> r.value.stepped == Stepped(p.lens.Set(model, proposed), s.proposedLl.value,
                                                  Caches(s.proposedLl, Some(s.proposedPrior))))
  {
    var s := Score(p, like, caches.prior, model, supplied, proposed, true, mapNanLl);
    if a.enabled {
      AG.StatusUpdateNeverPanics(num, a, lnU, s.logAlpha, proposed, s.current);
    }
  }

  /**
   * A proposal outside the prior's support, made from a state with a finite
   * score, is rejected: the step returns the input model and its
   * log-likelihood, and never evaluates the proposal's likelihood.
   */
  lemma OutOfSupportRejected<M(!new)>(num: Numerics, p: Parameter<real, M>, like: M -> Float, mapNanLl: bool,
                                     caches: Caches, a: AG.GlobalState,
                                     model: M, supplied: Option<Float>, proposed: real, lnU: Float)
    requires num.Valid()
    requires a.proposalScale > 0.0 && a.scale > 0.0
    requires var l := p.prior.lnF(proposed); l.NaN? || l.NegInf?
    requires var s := Score(p, like, caches.prior, model, supplied, proposed, true, mapNanLl);
      Add(s.currentLl, s.currentPrior).Finite?
    ensures var r := Transition(num, p, like, mapNanLl, caches, a, model, supplied, proposed, lnU);
      var s := Score(p, like, caches.prior, model, supplied, proposed, true, mapNanLl);
      r.Done? && r.value.stepped == Stepped(model, s.currentLl, caches)
  {
    var s := Score(p, like, caches.prior, model, supplied, proposed, true, mapNanLl);
    OutOfSupportRatio(p, like, caches.prior, model, supplied, proposed, true, mapNanLl);
    AG.StatusUpdateNeverPanics(num, a, lnU, s.logAlpha, proposed, s.current);
  }

  /**
   * From a state whose score is minus infinity, a proposal outside the
   * support gives a NaN log-ratio, which `metropolis_proposal` accepts; the
   * proposal has no log-likelihood, so the `unwrap` panics.
   */
  lemma BothOutOfSupportPanics<M(!new)>(num: Numerics, p: Parameter<real, M>, like: M -> Float, mapNanLl: bool,
                                       caches: Caches, a: AG.GlobalState,
                                       model: M, supplied: Option<Float>, proposed: real, lnU: Float)
    requires num.Valid()
    requires a.proposalScale > 0.0 && a.scale > 0.0
    requires var l := p.prior.lnF(proposed); l.NaN? || l.NegInf?
    requires var s := Score(p, like, caches.prior, model, supplied, proposed, true, mapNanLl);
      Add(s.currentLl, s.currentPrior) == NegInf
    ensures Transition(num, p, like, mapNanLl, caches, a, model, supplied, proposed, lnU) == Abort(UnwrapNone)
  {
    var s := Score(p, like, caches.prior, model, supplied, proposed, true, mapNanLl);
    BothOutOfSupportRatio(p, like, caches.prior, model, supplied, proposed, true, mapNanLl);
    AG.StatusUpdateNeverPanics(num, a, lnU, s.logAlpha, proposed, s.current);
  }

  class ScalarSrwm<M(!new)> {
    const parameter: Parameter<real, M>
    const logLikelihood: M -> Float
    var currentLlScore: Option<Float>
    var currentPriorScore: Option<Float>
    const adaptor: AG.GlobalAdaptor

    function Cached(): Caches
      reads this
    {
      Caches(currentLlScore, currentPriorScore)
    }

    /** `SRWM::new` of `srwm/stepper/mod.rs`: no cached scores, the given adaptor. */
    constructor (parameter: Parameter<real, M>, logLikelihood: M -> Float, adaptor: AG.GlobalAdaptor)
      ensures this.parameter == parameter && this.logLikelihood == logLikelihood && this.adaptor == adaptor
      ensures Cached() == Empty
    {
      this.parameter := parameter;
      this.logLikelihood := logLikelihood;
      currentLlScore := None;
      currentPriorScore := None;
      this.adaptor := adaptor;
    }

    method StepWithLogLikelihood(num: Numerics, model: M, suppliedLl: Option<Float>, proposed: real, lnU: Float)
      returns (r: Fallible<(M, Float)>)
      requires num.Valid()
      modifies this, adaptor
      ensures match Transition(num, parameter, logLikelihood, true, old(Cached()), old(adaptor.Fields()),
                               model, suppliedLl, proposed, lnU)
        case Done(o) => r == Done((o.stepped.model, o.stepped.ll)) &&
                        Cached() == o.stepped.caches && adaptor.Fields() == o.adaptor
        case Abort(c) => r == Abort(c)
    {
      ghost var c0 := Cached();
      var s := Score(parameter, logLikelihood, currentPriorScore, model, suppliedLl, proposed, true, true);
      if !(adaptor.Scale() > 0.0) {
        return Abort(ScaleNotPositive);
      }
      var update := MHS.MetropolisProposal(lnU, s.logAlpha, proposed, s.current);
      var adapted := adaptor.Update(num, update);
      if adapted.Abort? {
        return Abort(adapted.cause);
      }
      match update
      case Accepted(_, _) =>
        currentLlScore := s.proposedLl;
        currentPriorScore := Some(s.proposedPrior);
        if s.proposedLl.None? {
          assert Conclude(s, true, model, c0) == Abort(UnwrapNone);
          return Abort(UnwrapNone);
        }
        assert Conclude(s, true, model, c0) == Done(Stepped(s.proposedModel, s.proposedLl.value, Cached()));
        return Done((s.proposedModel, s.proposedLl.value));
      case Rejected(_, _) =>
        assert Conclude(s, false, model, c0) == Done(Stepped(model, s.currentLl, Cached()));
        return Done((model, s.currentLl));
    }

    /** `step`: a step with the cached log-likelihood, keeping only the model. */
    method Step(num: Numerics, model: M, proposed: real, lnU: Float) returns (r: Fallible<M>)
      requires num.Valid()
      modifies this, adaptor
      ensures match Transition(num, parameter, logLikelihood, true, old(Cached()), old(adaptor.Fields()),
                               model, old(currentLlScore), proposed, lnU)
        case Done(o) => r == Done(o.stepped.model) &&
                        Cached() == o.stepped.caches && adaptor.Fields() == o.adaptor
        case Abort(c) => r == Abort(c)
    {
      var stepped := StepWithLogLikelihood(num, model, currentLlScore, proposed, lnU);
      match stepped
      case Done((m, _)) => r := Done(m);
      case Abort(c) => r := Abort(c);
    }

    /** `draw_prior`: the parameter's prior draw put into the model. */
    function DrawPrior(m: M, seed: Seed): (r: M)
      ensures Lenses.GetSet(parameter.lens) ==> parameter.lens.Get(r) == parameter.prior.sample(seed)
      ensures Lenses.Lawful(parameter.lens) ==> parameter.lens.Set(r, parameter.lens.Get(m)) == m
    {
      parameter.Draw(m, seed)
    }

    method AdaptEnable()
      modifies adaptor
      ensures adaptor.Fields() == old(adaptor.Fields()).(enabled := true)
      ensures AdaptState() == On
    {
      adaptor.Enable();
    }

    method AdaptDisable()
      modifies adaptor
      ensures adaptor.Fields() == old(adaptor.Fields()).(enabled := false)
      ensures AdaptState() == Off
    {
      adaptor.Disable();
    }

    function AdaptState(): (r: AdaptState)
      reads adaptor
      ensures (r == On <==> adaptor.enabled) && (r == Off <==> !adaptor.enabled)
    {
      adaptor.State()
    }
  }
}
