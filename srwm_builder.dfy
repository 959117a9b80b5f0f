/**
 * `SRWMBuilder`: a parameter and an `adaptor` global adaptor, set up before
 * a stepper is built. The fluent constructors return new builders; only
 * `proposal_scale` writes the held adaptor in place.
 */
module SrwmBuilder {
  import opened Floats
  import opened Outcomes
  import opened Parameters
  import opened SrwmCore
  import GA = AdaptorGlobal
  import SrwmOld

  /**
   * Both prior-derived constructors leave the proposal scale at 0, so the
   * first step of a stepper built before a positive scale is set panics.
   */
  lemma UnscaledBuilderPanics<M(!new)>(num: Numerics, p: Parameter<real, M>, like: M -> Float,
                                      mean: real, variance: real,
                                      model: M, supplied: Option<Float>, proposed: real, lnU: Float)
    requires num.Valid()
    ensures SrwmOld.Transition(num, p, like, Empty, GA.NewState(0.0, mean, variance),
                               model, supplied, proposed, lnU) == Abort(ScaleNotPositive)
  {
  }

  class SrwmBuilder<M(!new)> {
    const parameter: Parameter<real, M>
    var adaptor: GA.GlobalAdaptor

    constructor Init(parameter: Parameter<real, M>, adaptor: GA.GlobalAdaptor)
      ensures this.parameter == parameter && this.adaptor == adaptor
    {
      this.parameter := parameter;
      this.adaptor := adaptor;
    }

    /** `new`: proposal scale 1, mean 0 and variance 1. */
    static method New(parameter: Parameter<real, M>) returns (b: SrwmBuilder<M>)
      ensures fresh(b) && fresh(b.adaptor) && b.parameter == parameter
      ensures b.adaptor.Fields() == GA.NewState(1.0, 0.0, 1.0)
    {
      var a := new GA.GlobalAdaptor(1.0, 0.0, 1.0);
      b := new SrwmBuilder.Init(parameter, a);
    }

    /** `initial_scale`: a new builder on the same parameter whose adaptor starts from `scale`. */
    method InitialScale(scale: real) returns (b: SrwmBuilder<M>)
      ensures fresh(b) && fresh(b.adaptor) && b.parameter == parameter
      ensures b.adaptor.Fields() == old(adaptor.Fields()).(proposalScale := scale, initialProposalScale := scale)
    {
      var a := adaptor.InitialScale(scale);
      b := new SrwmBuilder.Init(parameter, a);
    }

    /** `new_from_prior`: `None` without a prior variance or mean, otherwise those with proposal scale 0. */
    static method NewFromPrior(parameter: Parameter<real, M>) returns (r: Option<SrwmBuilder<M>>)
      ensures parameter.prior.variance.None? || parameter.prior.mean.None? ==> r.None?
      ensures parameter.prior.variance.Some? && parameter.prior.mean.Some? ==>
        r.Some? && fresh(r.value) && fresh(r.value.adaptor) && r.value.parameter == parameter &&
        r.value.adaptor.Fields() == GA.NewState(0.0, parameter.prior.mean.value, parameter.prior.variance.value)
    {
      if parameter.prior.variance.None? || parameter.prior.mean.None? {
        return None;
      }
      var a := new GA.GlobalAdaptor(0.0, parameter.prior.mean.value, parameter.prior.variance.value);
      var b := new SrwmBuilder.Init(parameter, a);
      return Some(b);
    }

    /** `new_with_mean_and_variance`: the given mean and variance with proposal scale 0. */
    static method NewWithMeanAndVariance(parameter: Parameter<real, M>, mean: real, variance: real)
      returns (b: SrwmBuilder<M>)
      ensures fresh(b) && fresh(b.adaptor) && b.parameter == parameter
      ensures b.adaptor.Fields() == GA.NewState(0.0, mean, variance)
    {
      var a := new GA.GlobalAdaptor(0.0, mean, variance);
      b := new SrwmBuilder.Init(parameter, a);
    }

    /** `proposal_scale`: overwrites the held adaptor's proposal scale and nothing else. */
    method ProposalScale(scale: real)
      modifies adaptor
      ensures adaptor.Fields() == old(adaptor.Fields()).(proposalScale := scale)
    {
      adaptor.proposalScale := scale;
    }

    /** `clone`: the same parameter and a copy of the adaptor. */
    method Clone() returns (b: SrwmBuilder<M>)
      ensures fresh(b) && fresh(b.adaptor) && b.parameter == parameter
      ensures b.adaptor.Fields() == adaptor.Fields()
    {
      var a := new GA.GlobalAdaptor.Copy(adaptor.Fields());
      b := new SrwmBuilder.Init(parameter, a);
    }

    /**
     * `build`: a stepper with empty caches and its own copy of the adaptor,
     * so later steps never reach back into the builder.
     */
    method Build(logLikelihood: M -> Float) returns (s: SrwmOld.Srwm<M>)
      ensures fresh(s) && fresh(s.adaptor) && s.adaptor != adaptor
      ensures s.parameter == parameter && s.loglikelihood == logLikelihood && s.Cached() == Empty
      ensures s.adaptor.Fields() == adaptor.Fields()
    {
      var a := new GA.GlobalAdaptor.Copy(adaptor.Fields());
      s := new SrwmOld.Srwm.Init(parameter, logLikelihood, a);
    }
  }
}
