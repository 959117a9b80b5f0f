/**
 * The vector step of `srwm/stepper/vector.rs`: multivariate Gaussian
 * proposals whose covariance is the adaptor's scale. The proposed vector and
 * ln(u) are inputs. The step neither asserts on the scale nor maps a NaN
 * proposed log-likelihood; it panics through `expect` when the covariance
 * cannot parameterise a multivariate Gaussian around the current vector.
 */
module SrwmVector {
  import opened Floats
  import opened Outcomes
  import opened Parameters
  import Lenses
  import opened AdaptStates
  import opened SrwmCore
  import MHS = MhAcceptReject

  type Vector = seq<real>
  type Matrix = seq<seq<real>>

  /**
   * The shape `MvGaussian::new` demands of a covariance: square, with the
   * dimension of the mean. Positive definiteness is not modelled.
   */
  predicate CovarianceFits(mean: Vector, cov: Matrix) {
    |cov| == |mean| && forall i :: 0 <= i < |cov| ==> |cov[i]| == |mean|
  }

  /**
   * The adaptor of a vector stepper. Its update rule for vectors is not part
   * of this model; it keeps the covariance it hands out, its switch, and the
   * statuses it has been given, in order.
   */
  datatype VectorAdaptorState = VectorAdaptorState(covariance: Matrix, enabled: bool, received: seq<MHS.MHStatus<Vector>>)

  class VectorAdaptor {
    var covariance: Matrix
    var enabled: bool
    var received: seq<MHS.MHStatus<Vector>>

    function Fields(): VectorAdaptorState
      reads this
    {
      VectorAdaptorState(covariance, enabled, received)
    }

    constructor (covariance: Matrix)
      ensures Fields() == VectorAdaptorState(covariance, false, [])
    {
      this.covariance := covariance;
      enabled := false;
      received := [];
    }

    method Update(update: MHS.MHStatus<Vector>)
      modifies this
      ensures Fields() == old(Fields()).(received := old(received) + [update])
    {
      received := received + [update];
    }

    function Scale(): Matrix
      reads this
    {
      covariance
    }

    function State(): AdaptState
      reads this
    {
      if enabled then On else Off
    }

    method Enable()
      modifies this
      ensures Fields() == old(Fields()).(enabled := true) && State() == On
    {
      enabled := true;
    }

    method Disable()
      modifies this
      ensures Fields() == old(Fields()).(enabled := false) && State() == Off
    {
      enabled := false;
    }
  }

  /** One step's result: what is returned and cached, and the status handed to the adaptor. */
  datatype Outcome<M> = Outcome(stepped: Stepped<M>, status: MHS.MHStatus<Vector>)

  /** One `step_with_log_likelihood` of the vector stepper with caches `caches` and proposal covariance `cov`. */
  function Transition<M(!new)>(p: Parameter<Vector, M>, like: M -> Float, caches: Caches, cov: Matrix,
                              model: M, supplied: Option<Float>, proposed: Vector, lnU: Float): (r: Fallible<Outcome<M>>)
    ensures !CovarianceFits(p.lens.Get(model), cov) ==> r == Abort(InvalidCovariance)
  {
    if !CovarianceFits(p.lens.Get(model), cov) then Abort(InvalidCovariance)
    else
      var s := Score(p, like, caches.prior, model, supplied, proposed, true, false);
      var u := MHS.MetropolisProposal(lnU, s.logAlpha, proposed, s.current);
      match Conclude(s, u.Accepted?, model, caches)
      case Done(st) => Done(Outcome(st, u))
      case Abort(c) => Abort(c)
  }

  /**
   * The vector step decides as the scalar one does: the adaptor is given the
   * `mh_accept_reject` status of ln(u) and the log-ratio; an accepted
   * proposal is returned with its own log-likelihood and cached, a rejected
   * one returns the input model; an in-support proposal never panics, and
   * one outside the support from a finite-score state is rejected.
   */
  lemma VectorStepOutcomes<M(!new)>(p: Parameter<Vector, M>, like: M -> Float, caches: Caches, cov: Matrix,
                                   model: M, supplied: Option<Float>, proposed: Vector, lnU: Float)
    requires CovarianceFits(p.lens.Get(model), cov)
    ensures var r := Transition(p, like, caches, cov, model, supplied, proposed, lnU);
      var s := Score(p, like, caches.prior, model, supplied, proposed, true, false);
      var u := MHS.MetropolisProposal(lnU, s.logAlpha, proposed, s.current);
      (s.proposedPrior.Finite? ==> r.Done?) &&
      (r.Done? ==> r.value.status == u) &&
      (s.proposedPrior.Finite? && u.Accepted? ==>
         r.Done? && r.value.stepped.ll == like(p.lens.Set(model, proposed))) &&
      (r.Done? && r.value.status.Rejected? ==> r.value.stepped == Stepped(model, s.currentLl, caches)) &&
      (r.Done? && r.value.status.Accepted? ==>
         r.value.stepped.model == p.lens.Set(model, proposed) && r.value.stepped.caches == Caches(Some(r.value.stepped.ll), Some(s.proposedPrior))) &&
      (!s.proposedPrior.Finite? && Add(s.currentLl, s.currentPrior).Finite? && p.prior.lnF(proposed) != PosInf ==>
         r.Done? && r.value.status.Rejected?)
  {
    var s := Score(p, like, caches.prior, model, supplied, proposed, true, false);
    if !s.proposedPrior.Finite? && p.prior.lnF(proposed) != PosInf {
      OutOfSupportRatio(p, like, caches.prior, model, supplied, proposed, true, false);
    }
  }

  class VectorSrwm<M(!new)> {
    const parameter: Parameter<Vector, M>
    const logLikelihood: M -> Float
    var currentLlScore: Option<Float>
    var currentPriorScore: Option<Float>
    const adaptor: VectorAdaptor

    function Cached(): Caches
      reads this
    {
      Caches(currentLlScore, currentPriorScore)
    }

    /** `SRWM::new` of `srwm/stepper/mod.rs`: no cached scores, the given adaptor. */
    constructor (parameter: Parameter<Vector, M>, logLikelihood: M -> Float, adaptor: VectorAdaptor)
      ensures this.parameter == parameter && this.logLikelihood == logLikelihood && this.adaptor == adaptor
      ensures Cached() == Empty
    {
      this.parameter := parameter;
      this.logLikelihood := logLikelihood;
      currentLlScore := None;
      currentPriorScore := None;
      this.adaptor := adaptor;
    }

    /** The adaptor is given the step's status exactly once, before the step returns. */
    method StepWithLogLikelihood(model: M, suppliedLl: Option<Float>, proposed: Vector, lnU: Float)
      returns (r: Fallible<(M, Float)>)
      modifies this, adaptor
      ensures match Transition(parameter, logLikelihood, old(Cached()), old(adaptor.covariance),
                               model, suppliedLl, proposed, lnU)
        case Done(o) => r == Done((o.stepped.model, o.stepped.ll)) && Cached() == o.stepped.caches &&
                        adaptor.Fields() == old(adaptor.Fields()).(received := old(adaptor.received) + [o.status])
        case Abort(c) => r == Abort(c)
    {
      var s := Score(parameter, logLikelihood, currentPriorScore, model, suppliedLl, proposed, true, false);
      if !CovarianceFits(s.current, adaptor.Scale()) {
        return Abort(InvalidCovariance);
      }
      var update := MHS.MetropolisProposal(lnU, s.logAlpha, proposed, s.current);
      adaptor.Update(update);
      match update
      case Accepted(_, _) =>
        currentLlScore := s.proposedLl;
        currentPriorScore := Some(s.proposedPrior);
        if s.proposedLl.None? {
          return Abort(UnwrapNone);
        }
        return Done((s.proposedModel, s.proposedLl.value));
      case Rejected(_, _) =>
        return Done((model, s.currentLl));
    }

    method Step(model: M, proposed: Vector, lnU: Float) returns (r: Fallible<M>)
      modifies this, adaptor
      ensures match Transition(parameter, logLikelihood, old(Cached()), old(adaptor.covariance),
                               model, old(currentLlScore), proposed, lnU)
        case Done(o) => r == Done(o.stepped.model) && Cached() == o.stepped.caches &&
                        adaptor.Fields() == old(adaptor.Fields()).(received := old(adaptor.received) + [o.status])
        case Abort(c) => r == Abort(c)
    {
      var stepped := StepWithLogLikelihood(model, currentLlScore, proposed, lnU);
      match stepped
      case Done((m, _)) => r := Done(m);
      case Abort(c) => r := Abort(c);
    }

    /** `draw_prior`: the parameter's prior draw put into the model. */
    function DrawPrior(m: M, seed: Seed): (r: M)
      ensures Lenses.GetSet(parameter.lens) ==> parameter.lens.Get(r) == parameter.prior.sample(seed)
      ensures Lenses.Lawful(parameter.lens) ==> parameter.lens.Set(r, parameter.lens.Get(m)) == m
    {
      parameter.Draw(m, seed)
    }

    method AdaptEnable()
      modifies adaptor
      ensures adaptor.Fields() == old(adaptor.Fields()).(enabled := true)
      ensures AdaptState() == On
    {
      adaptor.Enable();
    }

    method AdaptDisable()
      modifies adaptor
      ensures adaptor.Fields() == old(adaptor.Fields()).(enabled := false)
      ensures AdaptState() == Off
    {
      adaptor.Disable();
    }

    function AdaptState(): (r: AdaptState)
      reads adaptor
      ensures (r == On <==> adaptor.enabled) && (r == Off <==> !adaptor.enabled)
    {
      adaptor.State()
    }
  }
}
