/**
 * The SRWM stepper of `srwm/stepper.rs`, a revision of the scalar stepper
 * that keeps a NaN proposed log-likelihood as it is. Its step is the scalar
 * transition with that mapping switched off.
 */
module SrwmAlt {
  import opened Floats
  import opened Outcomes
  import opened Parameters
  import Lenses
  import opened AdaptStates
  import opened SrwmCore
  import opened SrwmScalar
  import AG = AdaptorsGlobal
  import MHS = MhAcceptReject

  /**
   * Unlike `scalar.rs`, a NaN log-likelihood of an in-support proposal
   * reaches the decision: the log-ratio is NaN, `metropolis_proposal`
   * accepts it, and the stepper caches and returns the NaN log-likelihood.
   */
  lemma NanLikelihoodAccepted<M(!new)>(num: Numerics, p: Parameter<real, M>, like: M -> Float,
                                      caches: Caches, a: AG.GlobalState,
                                      model: M, supplied: Option<Float>, proposed: real, lnU: Float)
    requires num.Valid()
    requires a.proposalScale > 0.0 && a.scale > 0.0
    requires NanToNegInf(p.prior.lnF(proposed)).Finite?
    requires like(p.lens.Set(model, proposed)).NaN?
    ensures var r := Transition(num, p, like, false, caches, a, model, supplied, proposed, lnU);
      r.Done? && r.value.stepped.model == p.lens.Set(model, proposed) && r.value.stepped.ll.NaN? &&
      r.value.stepped.caches.ll == Some(NaN)
  {
    InSupportStep(num, p, like, false, caches, a, model, supplied, proposed, lnU);
  }

  /** In `scalar.rs` the same NaN log-likelihood becomes minus infinity, and the caches never hold NaN from it. */
  lemma NanLikelihoodMapped<M(!new)>(num: Numerics, p: Parameter<real, M>, like: M -> Float,
                                    caches: Caches, a: AG.GlobalState,
                                    model: M, supplied: Option<Float>, proposed: real, lnU: Float)
    requires num.Valid()
    requires a.proposalScale > 0.0 && a.scale > 0.0
    requires NanToNegInf(p.prior.lnF(proposed)).Finite?
    requires like(p.lens.Set(model, proposed)).NaN?
    ensures var r := Transition(num, p, like, true, caches, a, model, supplied, proposed, lnU);
      r.Done? && (r.value.stepped.model != model ==> r.value.stepped.caches.ll == Some(NegInf))
  {
    InSupportStep(num, p, like, true, caches, a, model, supplied, proposed, lnU);
  }

  class Srwm<M(!new)> {
    const parameter: Parameter<real, M>
    const logLikelihood: M -> Float
    var currentLlScore: Option<Float>
    var currentPriorScore: Option<Float>
    const adaptor: AG.GlobalAdaptor

    function Cached(): Caches
      reads this
    {
      Caches(currentLlScore, currentPriorScore)
    }

    /** `SRWM::new`: no cached scores, the given adaptor. */
    constructor (parameter: Parameter<real, M>, logLikelihood: M -> Float, adaptor: AG.GlobalAdaptor)
      ensures this.parameter == parameter && this.logLikelihood == logLikelihood && this.adaptor == adaptor
      ensures Cached() == Empty
    {
      this.parameter := parameter;
      this.logLikelihood := logLikelihood;
      currentLlScore := None;
      currentPriorScore := None;
      this.adaptor := adaptor;
    }

    method StepWithLogLikelihood(num: Numerics, model: M, suppliedLl: Option<Float>, proposed: real, lnU: Float)
      returns (r: Fallible<(M, Float)>)
      requires num.Valid()
      modifies this, adaptor
      ensures match Transition(num, parameter, logLikelihood, false, old(Cached()), old(adaptor.Fields()),
                               model, suppliedLl, proposed, lnU)
        case Done(o) => r == Done((o.stepped.model, o.stepped.ll)) &&
                        Cached() == o.stepped.caches && adaptor.Fields() == o.adaptor
        case Abort(c) => r == Abort(c)
    {
      ghost var c0 := Cached();
      var s := Score(parameter, logLikelihood, currentPriorScore, model, suppliedLl, proposed, true, false);
      if !(adaptor.Scale() > 0.0) {
        return Abort(ScaleNotPositive);
      }
      var update := MHS.MetropolisProposal(lnU, s.logAlpha, proposed, s.current);
      var adapted := adaptor.Update(num, update);
      if adapted.Abort? {
        return Abort(adapted.cause);
      }
      match update
      case Accepted(_, _) =>
        currentLlScore := s.proposedLl;
        currentPriorScore := Some(s.proposedPrior);
        if s.proposedLl.None? {
          assert Conclude(s, true, model, c0) == Abort(UnwrapNone);
          return Abort(UnwrapNone);
        }
        assert Conclude(s, true, model, c0) == Done(Stepped(s.proposedModel, s.proposedLl.value, Cached()));
        return Done((s.proposedModel, s.proposedLl.value));
      case Rejected(_, _) =>
        assert Conclude(s, false, model, c0) == Done(Stepped(model, s.currentLl, Cached()));
        return Done((model, s.currentLl));
    }

    /** `step`: a step with the cached log-likelihood, keeping only the model. */
    method Step(num: Numerics, model: M, proposed: real, lnU: Float) returns (r: Fallible<M>)
      requires num.Valid()
      modifies this, adaptor
      ensures match Transition(num, parameter, logLikelihood, false, old(Cached()), old(adaptor.Fields()),
                               model, old(currentLlScore), proposed, lnU)
        case Done(o) => r == Done(o.stepped.model) &&
                        Cached() == o.stepped.caches && adaptor.Fields() == o.adaptor
        case Abort(c) => r == Abort(c)
    {
      var stepped := StepWithLogLikelihood(num, model, currentLlScore, proposed, lnU);
      match stepped
      case Done((m, _)) => r := Done(m);
      case Abort(c) => r := Abort(c);
    }

    /** `draw_prior`: the parameter's prior draw put into the model. */
    function DrawPrior(m: M, seed: Seed): (r: M)
      ensures Lenses.GetSet(parameter.lens) ==> parameter.lens.Get(r) == parameter.prior.sample(seed)
      ensures Lenses.Lawful(parameter.lens) ==> parameter.lens.Set(r, parameter.lens.Get(m)) == m
    {
      parameter.Draw(m, seed)
    }

    method AdaptEnable()
      modifies adaptor
      ensures adaptor.Fields() == old(adaptor.Fields()).(enabled := true)
      ensures AdaptState() == On
    {
      adaptor.Enable();
    }

    method AdaptDisable()
      modifies adaptor
      ensures adaptor.Fields() == old(adaptor.Fields()).(enabled := false)
      ensures AdaptState() == Off
    {
      adaptor.Disable();
    }

    function AdaptState(): (r: AdaptState)
      reads adaptor
      ensures (r == On <==> adaptor.enabled) && (r == Off <==> !adaptor.enabled)
    {
      adaptor.State()
    }
  }
}
