/**
 * The discrete random-walk stepper of `discrete_srwm/stepper.rs`. A
 * magnitude drawn from a geometric distribution, whose parameter depends on
 * the adaptor's scale, is converted to the value's integer type and added or
 * subtracted with saturation according to a fair coin. The proposed log-prior
 * is used as it is (a NaN is not mapped), and the decision is the clipping
 * `helpers` primitive. The magnitude, the coin and ln(u) are inputs.
 */
module DiscreteSrwm {
  import opened Floats
  import opened Outcomes
  import opened Parameters
  import Lenses
  import opened AdaptStates
  import opened SrwmCore
  import opened DiscreteTypes
  import Spec = AdaptorSimple
  import AS = AdaptorsSimple
  import MHS = MhAcceptReject

  datatype Outcome<M> = Outcome(stepped: Stepped<M>, adaptor: Spec.SimpleState)

  /**
   * The returning half of this stepper: an accepted proposal is cached with
   * its scores, but the log-likelihood returned is the one passed in, which
   * `unwrap` demands; a rejected one returns the input model and the current
   * log-likelihood.
   */
  function Conclude<M>(s: Scored<int, M>, accepted: bool, model: M, supplied: Option<Float>, caches: Caches)
    : (r: Fallible<Stepped<M>>)
    ensures !accepted ==> r == Done(Stepped(model, s.currentLl, caches))
    ensures accepted && supplied.None? ==> r == Abort(UnwrapNone)
    ensures accepted && supplied.Some? ==>
      r == Done(Stepped(s.proposedModel, supplied.value, Caches(s.proposedLl, Some(s.proposedPrior))))
  {
    if !accepted then Done(Stepped(model, s.currentLl, caches))
    else match supplied
      case None => Abort(UnwrapNone)
      case Some(ll) => Done(Stepped(s.proposedModel, ll, Caches(s.proposedLl, Some(s.proposedPrior))))
  }

  /**
   * One `step_with_log_likelihood` with caches `caches` and adaptor state
   * `a`, for a value of integer type `kind`. Over the reals the geometric
   * parameter is NaN, and `Geometric::new` fails, exactly when the scale is 0.
   */
  function Transition<M(!new)>(num: Numerics, p: Parameter<int, M>, like: M -> Float, kind: IntKind,
                              caches: Caches, a: Spec.SimpleState,
                              model: M, supplied: Option<Float>, mag: nat, up: bool, lnU: Float)
    : (r: Fallible<Outcome<M>>)
    ensures a.scale == 0.0 ==> r == Abort(ZeroProposalScale)
    ensures a.scale != 0.0 && mag > MaxOf(kind) ==> r == Abort(MagnitudeOutOfRange)
  {
    if a.scale == 0.0 then Abort(ZeroProposalScale)
    else match Propose(kind, p.lens.Get(model), mag, up)
      case Abort(c) => Abort(c)
      case Done(proposed) =>
        var s := Score(p, like, caches.prior, model, supplied, proposed, false, false);
        var u := MHS.MetropolisProposal(lnU, s.logAlpha, proposed, s.current);
        match Conclude(s, u.Accepted?, model, supplied, caches)
        case Done(st) => Done(Outcome(st, Spec.Advance(num, a, u.logAlpha)))
        case Abort(c) => Abort(c)
  }

  /**
   * An accepted step returns the log-likelihood it was given instead of the
   * proposal's, while it caches the proposal's: the two disagree whenever the
   * likelihood tells the models apart.
   */
  lemma AcceptReturnsIncomingLikelihood<M(!new)>(num: Numerics, p: Parameter<int, M>, like: M -> Float, kind: IntKind,
                                                caches: Caches, a: Spec.SimpleState,
                                                model: M, ll: Float, mag: nat, up: bool, lnU: Float)
    requires a.scale != 0.0 && mag <= MaxOf(kind)
    requires var proposed := Propose(kind, p.lens.Get(model), mag, up).value;
      var s := Score(p, like, caches.prior, model, Some(ll), proposed, false, false);
      MHS.MetropolisProposal(lnU, s.logAlpha, proposed, s.current).Accepted?
    ensures var r := Transition(num, p, like, kind, caches, a, model, Some(ll), mag, up, lnU);
      var proposed := Propose(kind, p.lens.Get(model), mag, up).value;
      var pm := p.lens.Set(model, proposed);
      r.Done? && r.value.stepped.model == pm && r.value.stepped.ll == ll &&
      (p.prior.lnF(proposed).Finite? ==> r.value.stepped.caches.ll == Some(like(pm)))
  {
  }

  /**
   * Without a log-likelihood passed in, every acceptance panics. `step`
   * passes the cached one, which starts as `None` and is only written on an
   * acceptance, so a new stepper driven by `step` panics at its first
   * acceptance.
   */
  lemma AcceptWithoutLikelihoodPanics<M(!new)>(num: Numerics, p: Parameter<int, M>, like: M -> Float, kind: IntKind,
                                              caches: Caches, a: Spec.SimpleState,
                                              model: M, mag: nat, up: bool, lnU: Float)
    requires a.scale != 0.0 && mag <= MaxOf(kind)
    requires var proposed := Propose(kind, p.lens.Get(model), mag, up).value;
      var s := Score(p, like, caches.prior, model, None, proposed, false, false);
      MHS.MetropolisProposal(lnU, s.logAlpha, proposed, s.current).Accepted?
    ensures Transition(num, p, like, kind, caches, a, model, None, mag, up, lnU) == Abort(UnwrapNone)
  {
  }

  /**
   * With the prior evaluated raw, a NaN log-prior of the proposal gives a NaN
   * log-ratio, which the clipping primitive accepts: the stepper moves to the
   * proposal, skips its log-likelihood and caches the NaN prior.
   */
  lemma NanPriorAccepted<M(!new)>(num: Numerics, p: Parameter<int, M>, like: M -> Float, kind: IntKind,
                                 caches: Caches, a: Spec.SimpleState,
                                 model: M, ll: Float, mag: nat, up: bool, lnU: Float)
    requires a.scale != 0.0 && mag <= MaxOf(kind)
    requires p.prior.lnF(Propose(kind, p.lens.Get(model), mag, up).value).NaN?
    ensures var r := Transition(num, p, like, kind, caches, a, model, Some(ll), mag, up, lnU);
      var proposed := Propose(kind, p.lens.Get(model), mag, up).value;
      r.Done? && r.value.stepped.model == p.lens.Set(model, proposed) &&
      r.value.stepped.caches == Caches(None, Some(NaN)) &&
      r.value.adaptor == Spec.Advance(num, a, Zero)
  {
    var proposed := Propose(kind, p.lens.Get(model), mag, up).value;
    var s := Score(p, like, caches.prior, model, Some(ll), proposed, false, false);
    assert s.logAlpha == NaN;
  }

  /**
   * A proposal outside the support (log-prior minus infinity) from a state
   * with a finite score is rejected: the input model and its log-likelihood
   * come back and the caches are untouched.
   */
  lemma OutOfSupportRejected<M(!new)>(num: Numerics, p: Parameter<int, M>, like: M -> Float, kind: IntKind,
                                     caches: Caches, a: Spec.SimpleState,
                                     model: M, supplied: Option<Float>, mag: nat, up: bool, lnU: Float)
    requires a.scale != 0.0 && mag <= MaxOf(kind)
    requires IsLogUniform(lnU)
    requires p.prior.lnF(Propose(kind, p.lens.Get(model), mag, up).value).NegInf?
    requires var s := Score(p, like, caches.prior, model, supplied, Propose(kind, p.lens.Get(model), mag, up).value, false, false);
      Add(s.currentLl, s.currentPrior).Finite?
    ensures var r := Transition(num, p, like, kind, caches, a, model, supplied, mag, up, lnU);
      var s := Score(p, like, caches.prior, model, supplied, Propose(kind, p.lens.Get(model), mag, up).value, false, false);
      r == Done(Outcome(Stepped(model, s.currentLl, caches), Spec.Advance(num, a, NegInf)))
  {
    var proposed := Propose(kind, p.lens.Get(model), mag, up).value;
    OutOfSupportRatio(p, like, caches.prior, model, supplied, proposed, false, false);
  }

  class DiscreteSrwm<M(!new)> {
    const parameter: Parameter<int, M>
    const logLikelihood: M -> Float
    const kind: IntKind
    var currentLogLikelihood: Option<Float>
    var currentPrior: Option<Float>
    const adaptor: AS.SimpleAdaptor

    function Cached(): Caches
      reads this
    {
      Caches(currentLogLikelihood, currentPrior)
    }

    /** `DiscreteSRWM::new`: no cached scores, the given adaptor. */
    constructor (parameter: Parameter<int, M>, logLikelihood: M -> Float, kind: IntKind, adaptor: AS.SimpleAdaptor)
      ensures this.parameter == parameter && this.logLikelihood == logLikelihood && this.kind == kind
      ensures this.adaptor == adaptor && Cached() == Empty
    {
      this.parameter := parameter;
      this.logLikelihood := logLikelihood;
      this.kind := kind;
      currentLogLikelihood := None;
      currentPrior := None;
      this.adaptor := adaptor;
    }

    method StepWithLogLikelihood(num: Numerics, model: M, logLikelihoodIn: Option<Float>, mag: nat, up: bool, lnU: Float)
      returns (r: Fallible<(M, Float)>)
      modifies this, adaptor
      ensures match Transition(num, parameter, this.logLikelihood, kind, old(Cached()), old(adaptor.Fields()),
                               model, logLikelihoodIn, mag, up, lnU)
        case Done(o) => r == Done((o.stepped.model, o.stepped.ll)) &&
                        Cached() == o.stepped.caches && adaptor.Fields() == o.adaptor
        case Abort(c) => r == Abort(c)
    {
      if adaptor.Scale() == 0.0 {
        return Abort(ZeroProposalScale);
      }
      var proposal := Propose(kind, parameter.lens.Get(model), mag, up);
      if proposal.Abort? {
        return Abort(proposal.cause);
      }
      var proposed := proposal.value;
      var s := Score(parameter, this.logLikelihood, currentPrior, model, logLikelihoodIn, proposed, false, false);
      var update := MHS.MetropolisProposal(lnU, s.logAlpha, proposed, s.current);
      adaptor.Update(num, update);
      match update
      case Accepted(_, _) =>
        if logLikelihoodIn.None? {
          return Abort(UnwrapNone);
        }
        currentLogLikelihood := s.proposedLl;
        currentPrior := Some(s.proposedPrior);
        return Done((s.proposedModel, logLikelihoodIn.value));
      case Rejected(_, _) =>
        return Done((model, s.currentLl));
    }

    method Step(num: Numerics, model: M, mag: nat, up: bool, lnU: Float) returns (r: Fallible<M>)
      modifies this, adaptor
      ensures match Transition(num, parameter, logLikelihood, kind, old(Cached()), old(adaptor.Fields()),
                               model, old(currentLogLikelihood), mag, up, lnU)
        case Done(o) => r == Done(o.stepped.model) &&
                        Cached() == o.stepped.caches && adaptor.Fields() == o.adaptor
        case Abort(c) => r == Abort(c)
    {
      var stepped := StepWithLogLikelihood(num, model, currentLogLikelihood, mag, up, lnU);
      match stepped
      case Done((m, _)) => r := Done(m);
      case Abort(c) => r := Abort(c);
    }

    /** `draw_prior`: the parameter's prior draw put into the model. */
    function DrawPrior(m: M, seed: Seed): (r: M)
      ensures Lenses.GetSet(parameter.lens) ==> parameter.lens.Get(r) == parameter.prior.sample(seed)
      ensures Lenses.Lawful(parameter.lens) ==> parameter.lens.Set(r, parameter.lens.Get(m)) == m
    {
      parameter.Draw(m, seed)
    }

    method AdaptEnable()
      modifies adaptor
      ensures adaptor.Fields() == old(adaptor.Fields()).(enabled := true)
      ensures AdaptState() == On
    {
      adaptor.Enable();
    }

    method AdaptDisable()
      modifies adaptor
      ensures adaptor.Fields() == old(adaptor.Fields()).(enabled := false)
      ensures AdaptState() == Off
    {
      adaptor.Disable();
    }

    function AdaptState(): (r: AdaptState)
      reads adaptor
      ensures (r == On <==> adaptor.enabled) && (r == Off <==> !adaptor.enabled)
    {
      adaptor.State()
    }
  }
}
