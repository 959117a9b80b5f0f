/**
 * The older discrete random-walk stepper, `discrete_srwm.rs`. Proposals are
 * built as in the newer revision, but it owns an `adaptor` simple adaptor
 * with an adaptation interval of 100, decides with the NaN-asserting
 * `metropolis_hastings_utils` primitive, returns the new log-likelihood as
 * an option and counts its steps.
 */
module DiscreteSrwmOld {
  import opened Floats
  import opened Outcomes
  import opened Parameters
  import Lenses
  import opened AdaptationModes
  import opened SrwmCore
  import opened DiscreteTypes
  import Spec = AdaptorSimple
  import MHU = MetropolisHastingsUtils

  datatype Outcome<M> = Outcome(result: ModelAndLikelihood<M>, caches: Caches, adaptor: Spec.SimpleState)

  /** The adaptation interval `new` gives the adaptor. */
  const AdaptInterval: nat := 100

  /** One `step_with_log_likelihood` with caches `caches` and adaptor state `a`. */
  function Transition<M(!new)>(num: Numerics, p: Parameter<int, M>, like: M -> Float, kind: IntKind,
                              caches: Caches, a: Spec.SimpleState,
                              model: M, supplied: Option<Float>, mag: nat, up: bool, lnU: Float)
    : (r: Fallible<Outcome<M>>)
    ensures a.scale == 0.0 ==> r == Abort(ZeroProposalScale)
    ensures a.scale != 0.0 && mag > MaxOf(kind) ==> r == Abort(MagnitudeOutOfRange)
  {
    if a.scale == 0.0 then Abort(ZeroProposalScale)
    else match Propose(kind, p.lens.Get(model), mag, up)
      case Abort(c) => Abort(c)
      case Done(proposed) =>
        var s := Score(p, like, caches.prior, model, supplied, proposed, false, false);
        match MHU.MetropolisSelect(lnU, s.logAlpha, proposed, s.current)
        case Abort(c) => Abort(c)
        case Done(u) =>
          var adapted := Spec.Advance(num, a, u.logAlpha);
          match u
          case Accepted(_, _) =>
            Done(Outcome(ModelAndLikelihood(s.proposedModel, s.proposedLl),
                         Caches(s.proposedLl, Some(s.proposedPrior)), adapted))
          case Rejected(_, _) =>
            Done(Outcome(ModelAndLikelihood(model, Some(s.currentLl)), caches, adapted))
  }

  /**
   * The log-prior is used raw, so a NaN prior at the proposal makes the
   * log-ratio NaN and the primitive's assert fails: where the newer revision
   * silently accepts, this one panics.
   */
  lemma NanPriorPanics<M(!new)>(num: Numerics, p: Parameter<int, M>, like: M -> Float, kind: IntKind,
                               caches: Caches, a: Spec.SimpleState,
                               model: M, supplied: Option<Float>, mag: nat, up: bool, lnU: Float)
    requires a.scale != 0.0 && mag <= MaxOf(kind)
    requires p.prior.lnF(Propose(kind, p.lens.Get(model), mag, up).value).NaN?
    ensures Transition(num, p, like, kind, caches, a, model, supplied, mag, up, lnU) == Abort(NanLogRatio)
  {
    var proposed := Propose(kind, p.lens.Get(model), mag, up).value;
    var s := Score(p, like, caches.prior, model, supplied, proposed, false, false);
    assert s.logAlpha == NaN;
  }

  /**
   * From a state with a finite score to a proposal with a finite prior and
   * log-likelihood, the step never panics: `metropolis_select` decides, the
   * adaptor advances on the log-ratio it carries, an acceptance returns and
   * caches the proposal's own scores, and a rejection returns the input model
   * with the current log-likelihood and keeps the caches.
   */
  lemma FiniteStep<M(!new)>(num: Numerics, p: Parameter<int, M>, like: M -> Float, kind: IntKind,
                           caches: Caches, a: Spec.SimpleState,
                           model: M, supplied: Option<Float>, mag: nat, up: bool, lnU: Float)
    requires a.scale != 0.0 && mag <= MaxOf(kind)
    requires var proposed := Propose(kind, p.lens.Get(model), mag, up).value;
      p.prior.lnF(proposed).Finite? && like(p.lens.Set(model, proposed)).Finite?
    requires var s := Score(p, like, caches.prior, model, supplied, Propose(kind, p.lens.Get(model), mag, up).value, false, false);
      Add(s.currentLl, s.currentPrior).Finite?
    ensures var r := Transition(num, p, like, kind, caches, a, model, supplied, mag, up, lnU);
      var proposed := Propose(kind, p.lens.Get(model), mag, up).value;
      var pm := p.lens.Set(model, proposed);
      var s := Score(p, like, caches.prior, model, supplied, proposed, false, false);
      var u := MHU.MetropolisSelect(lnU, s.logAlpha, proposed, s.current);
      u.Done? && r.Done? && r.value.adaptor == Spec.Advance(num, a, u.value.logAlpha) &&
      (u.value.Accepted? ==> r.value.result == ModelAndLikelihood(pm, Some(like(pm))) &&
                             r.value.caches == Caches(Some(like(pm)), Some(p.prior.lnF(proposed)))) &&
      (u.value.Rejected? ==> r.value.result == ModelAndLikelihood(model, Some(s.currentLl)) &&
                             r.value.caches == caches)
  {
  }

  class DiscreteSrwmOld<M(!new)> {
    const parameter: Parameter<int, M>
    const logLikelihood: M -> Float
    const kind: IntKind
    var currentLogLikelihoodScore: Option<Float>
    var currentPriorScore: Option<Float>
    const adaptor: Spec.SimpleAdaptor
    var step: nat

    function Cached(): Caches
      reads this
    {
      Caches(currentLogLikelihoodScore, currentPriorScore)
    }

    constructor Init(parameter: Parameter<int, M>, logLikelihood: M -> Float, kind: IntKind, adaptor: Spec.SimpleAdaptor)
      ensures this.parameter == parameter && this.logLikelihood == logLikelihood && this.kind == kind
      ensures this.adaptor == adaptor && Cached() == Empty && step == 0
    {
      this.parameter := parameter;
      this.logLikelihood := logLikelihood;
      this.kind := kind;
      currentLogLikelihoodScore := None;
      currentPriorScore := None;
      this.adaptor := adaptor;
      step := 0;
    }

    /** `DiscreteSRWM::new`: always `Some`, with a simple adaptor of scale 1 unless one is given. */
    static method New(parameter: Parameter<int, M>, logLikelihood: M -> Float, kind: IntKind, proposalScale: Option<real>)
      returns (r: Option<DiscreteSrwmOld<M>>)
      ensures r.Some? && fresh(r.value) && fresh(r.value.adaptor)
      ensures r.value.parameter == parameter && r.value.logLikelihood == logLikelihood && r.value.kind == kind
      ensures r.value.Cached() == Empty && r.value.step == 0
      ensures r.value.adaptor.Fields() == Spec.NewState(if proposalScale.Some? then proposalScale.value else 1.0, AdaptInterval)
    {
      var a := new Spec.SimpleAdaptor(if proposalScale.Some? then proposalScale.value else 1.0, AdaptInterval);
      var s := new DiscreteSrwmOld.Init(parameter, logLikelihood, kind, a);
      return Some(s);
    }

    /** Every call counts one step, whatever it returns. */
    method StepWithLogLikelihood(num: Numerics, model: M, logLikelihoodIn: Option<Float>, mag: nat, up: bool, lnU: Float)
      returns (r: Fallible<ModelAndLikelihood<M>>)
      modifies this, adaptor
      ensures step == old(step) + 1
      ensures match Transition(num, parameter, logLikelihood, kind, old(Cached()), old(adaptor.Fields()),
                               model, logLikelihoodIn, mag, up, lnU)
        case Done(o) => r == Done(o.result) && Cached() == o.caches && adaptor.Fields() == o.adaptor
        case Abort(c) => r == Abort(c)
    {
      step := step + 1;
      if adaptor.Scale() == 0.0 {
        return Abort(ZeroProposalScale);
      }
      var proposal := Propose(kind, parameter.lens.Get(model), mag, up);
      if proposal.Abort? {
        return Abort(proposal.cause);
      }
      var proposed := proposal.value;
      var s := Score(parameter, logLikelihood, currentPriorScore, model, logLikelihoodIn, proposed, false, false);
      var selected := MHU.MetropolisSelect(lnU, s.logAlpha, proposed, s.current);
      if selected.Abort? {
        return Abort(selected.cause);
      }
      var update := selected.value;
      adaptor.Update(num, update);
      match update
      case Accepted(_, _) =>
        currentLogLikelihoodScore := s.proposedLl;
        currentPriorScore := Some(s.proposedPrior);
        return Done(ModelAndLikelihood(s.proposedModel, s.proposedLl));
      case Rejected(_, _) =>
        return Done(ModelAndLikelihood(model, Some(s.currentLl)));
    }

    method Step(num: Numerics, model: M, mag: nat, up: bool, lnU: Float) returns (r: Fallible<M>)
      modifies this, adaptor
      ensures step == old(step) + 1
      ensures match Transition(num, parameter, logLikelihood, kind, old(Cached()), old(adaptor.Fields()),
                               model, old(currentLogLikelihoodScore), mag, up, lnU)
        case Done(o) => r == Done(o.result.model) && Cached() == o.caches && adaptor.Fields() == o.adaptor
        case Abort(c) => r == Abort(c)
    {
      var stepped := StepWithLogLikelihood(num, model, currentLogLikelihoodScore, mag, up, lnU);
      match stepped
      case Done(ml) => r := Done(ml.model);
      case Abort(c) => r := Abort(c);
    }

    method SetAdapt(mode: AdaptationMode)
      modifies adaptor
      ensures adaptor.Fields() == old(adaptor.Fields()).(enabled := mode == AdaptationMode.Enabled)
    {
      adaptor.SetMode(mode);
    }

    function Adapt(): (r: AdaptationStatus)
      reads adaptor
      ensures (r == AdaptationStatus.Enabled <==> adaptor.enabled) && (r == AdaptationStatus.Disabled <==> !adaptor.enabled)
    {
      adaptor.Mode()
    }

    /** `reset`: both caches cleared and the adaptor reset; the step count is kept. */
    method Reset()
      modifies this, adaptor
      ensures Cached() == Empty && adaptor.Fields() == Spec.ResetState(old(adaptor.Fields()))
      ensures step == old(step)
    {
      currentLogLikelihoodScore := None;
      currentPriorScore := None;
      adaptor.Reset();
    }

    /** `prior_draw`: the parameter's prior draw put into the model. */
    function PriorDraw(model: M, seed: Seed): (r: M)
      ensures Lenses.GetSet(parameter.lens) ==> parameter.lens.Get(r) == parameter.prior.sample(seed)
      ensures Lenses.Lawful(parameter.lens) ==> parameter.lens.Set(r, parameter.lens.Get(model)) == model
    {
      parameter.Draw(model, seed)
    }
  }
}
