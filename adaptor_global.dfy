/**
 * The globally adaptive (Robbins-Monro) scale adaptor of the `adaptor`
 * revision. Each enabled update moves the running mean `mu` and variance
 * `scale` of the chain towards the new value with gain
 * g = 0.9 / (step + 1)^0.9, moves `logLambda` by g (alpha - 0.234), and sets
 * the proposal scale to exp(logLambda) * scale, asserting that it is a
 * positive normal number. Values of the chain are kept as exact reals.
 */
module AdaptorGlobal {
  import opened Floats
  import opened Outcomes
  import opened AdaptationModes
  import MHU = MetropolisHastingsUtils

  /** The acceptance rate the adaptor steers towards. */
  const TargetAlpha: real := 0.234

  /** The gain of the update that follows `step` earlier updates. */
  function Gain(num: Numerics, step: nat): (g: real)
    requires num.Valid()
    ensures 0.0 < g <= 0.9
  {
    var p := num.pow09(step + 1);
    assert p >= 1.0;
    0.9 / p
  }

  lemma ProductPositive(x: real, y: real)
    requires x > 0.0 && y > 0.0
    ensures x * y > 0.0
  {
  }

  /** A gain strictly between 0 and 1 shortens a step without reversing it. */
  lemma Shrink(a: real, g: real, d: real)
    requires 0.0 < g < 1.0
    ensures d >= 0.0 ==> a <= a + g * d <= a + d
    ensures d <= 0.0 ==> a + d <= a + g * d <= a
    ensures d != 0.0 ==> a + g * d != a + d
  {
    var p := g * d;
    var q := (1.0 - g) * d;
    assert q == d - p;
    if d > 0.0 {
      ProductPositive(g, d);
      ProductPositive(1.0 - g, d);
    } else if d < 0.0 {
      ProductPositive(g, -d);
      ProductPositive(1.0 - g, -d);
    }
  }

  /**
   * One Robbins-Monro step a + g d from `a` along `d`, as the source writes
   * the new mean and the new variance: it ends between a and a + d.
   */
  function Toward(a: real, d: real, g: real): (r: real)
    requires 0.0 < g < 1.0
    ensures d >= 0.0 ==> a <= r <= a + d
    ensures d <= 0.0 ==> a + d <= r <= a
    ensures d != 0.0 ==> r != a + d
  {
    Shrink(a, g, d);
    a + g * d
  }

  lemma SquareNonNegative(x: real)
    ensures x * x >= 0.0
  {
    if x > 0.0 {
      ProductPositive(x, x);
    } else if x < 0.0 {
      ProductPositive(-x, -x);
      assert (-x) * (-x) == x * x;
    }
  }

  function Square(x: real): (r: real)
    ensures r >= 0.0
  {
    SquareNonNegative(x);
    x * x
  }

  /** A positive gain keeps the sign of what it multiplies. */
  lemma GainKeepsSign(l: real, g: real, x: real)
    requires g > 0.0
    ensures l + g * x > l <==> x > 0.0
    ensures l + g * x == l <==> x == 0.0
  {
    var p := g * x;
    if x > 0.0 {
      ProductPositive(g, x);
    } else if x < 0.0 {
      ProductPositive(g, -x);
      assert g * (-x) == -p;
    }
  }

  /**
   * The new log-scale factor log lambda + g (alpha - target). For a finite
   * alpha it rises exactly when alpha exceeds the target.
   */
  function NextLogLambda(logLambda: real, g: real, alpha: Float, target: real): (r: Float)
    requires g > 0.0
    ensures alpha.Finite? ==> (r.Finite? &&
      (r.r > logLambda <==> alpha.r > target) && (r.r == logLambda <==> alpha.r == target))
    ensures alpha.PosInf? ==> r.PosInf?
    ensures alpha.NaN? ==> r.NaN?
  {
    GainKeepsSign(logLambda, g, if alpha.Finite? then alpha.r + -target else 0.0);
    Add(Finite(logLambda), Scale(g, Sub(alpha, Finite(target))))
  }

  /** The values one enabled update computes, before its assert. */
  datatype Estimates = Estimates(logLambda: Float, mu: real, scale: real, proposalScale: Float)

  /**
   * The recurrence of `update`: the mean and the variance move part of the
   * way towards the new value and its squared deviation, `logLambda` rises
   * exactly when the acceptance probability exceeds the target, and the
   * proposal scale is exp(logLambda) times the variance.
   */
  function Estimate(num: Numerics, logLambda: real, mu: real, scale: real, step: nat,
                    target: real, value: real, logAlpha: Float): (e: Estimates)
    requires num.Valid()
    ensures mu <= value ==> mu <= e.mu <= value
    ensures value <= mu ==> value <= e.mu <= mu
    ensures mu != value ==> e.mu != value
    ensures var d2 := Square(value - mu);
      (scale <= d2 ==> scale <= e.scale <= d2) && (d2 <= scale ==> d2 <= e.scale <= scale)
    ensures scale > 0.0 ==> e.scale > 0.0
    ensures logAlpha.Finite? || logAlpha.NegInf? ==>
      var alpha := Exp(num, logAlpha).r;
      e.logLambda.Finite? &&
      (e.logLambda.r > logLambda <==> alpha > target) &&
      (e.logLambda.r == logLambda <==> alpha == target)
    ensures logAlpha.PosInf? ==> e.logLambda.PosInf?
    ensures e.proposalScale == Scale(e.scale, Exp(num, e.logLambda))
  {
    var alpha := Exp(num, logAlpha);
    var g := Gain(num, step);
    var delta := value - mu;
    var newLogLambda := NextLogLambda(logLambda, g, alpha, target);
    var newScale := Toward(scale, Square(delta) - scale, g);
    Estimates(newLogLambda, Toward(mu, delta, g), newScale, Scale(newScale, Exp(num, newLogLambda)))
  }

  /** The assert of `update`: a positive (normal) proposal scale. */
  predicate ScaleValid(p: Float) {
    p.Finite? && p.r > 0.0
  }

  /** A log acceptance probability as the clipping rule leaves it: 0 or below, not NaN. */
  predicate IsClipped(logAlpha: Float) {
    logAlpha.NegInf? || (logAlpha.Finite? && logAlpha.r <= 0.0)
  }

  lemma MinZeroClipped(delta: Float)
    ensures IsClipped(MinZero(delta))
  {
  }

  /**
   * With a positive variance estimate and a log acceptance that is finite or
   * minus infinity, the assert of `update` holds.
   */
  lemma AssertHolds(num: Numerics, logLambda: real, mu: real, scale: real, step: nat,
                    target: real, value: real, logAlpha: Float)
    requires num.Valid()
    requires scale > 0.0
    requires logAlpha.Finite? || logAlpha.NegInf?
    ensures ScaleValid(Estimate(num, logLambda, mu, scale, step, target, value, logAlpha).proposalScale)
  {
    var e := Estimate(num, logLambda, mu, scale, step, target, value, logAlpha);
    ProductPositive(e.scale, num.exp(e.logLambda.r));
  }

  /**
   * An unclipped log-ratio of plus infinity makes the proposal scale
   * infinite, so the assert fails.
   */
  lemma InfiniteLogAlphaPanics(num: Numerics, logLambda: real, mu: real, scale: real, step: nat,
                               target: real, value: real)
    requires num.Valid()
    requires scale > 0.0
    ensures !ScaleValid(Estimate(num, logLambda, mu, scale, step, target, value, PosInf).proposalScale)
  {
    var e := Estimate(num, logLambda, mu, scale, step, target, value, PosInf);
    assert e.scale > 0.0;
    assert Scale(Gain(num, step), Sub(PosInf, Finite(target))) == PosInf;
  }

  /** A NaN log-ratio makes the proposal scale NaN, so the assert fails. */
  lemma NanLogAlphaPanics(num: Numerics, logLambda: real, mu: real, scale: real, step: nat,
                          target: real, value: real)
    requires num.Valid()
    ensures !ScaleValid(Estimate(num, logLambda, mu, scale, step, target, value, NaN).proposalScale)
  {
  }

  datatype GlobalState = GlobalState(
    logLambda: real, mu: real, scale: real, step: nat, proposalScale: real,
    initialProposalScale: real, initialMu: real, initialScale: real,
    targetAlpha: real, enabled: bool)

  function NewState(initialProposalScale: real, mean: real, scale: real): GlobalState {
    GlobalState(0.0, mean, scale, 0, initialProposalScale,
                initialProposalScale, mean, scale, TargetAlpha, false)
  }

  /**
   * `update` on the state: a no-op while disabled; otherwise the estimates
   * replace the adapted fields, or the assert fails and nothing is written.
   */
  function Advance(num: Numerics, s: GlobalState, value: real, logAlpha: Float): (r: Fallible<GlobalState>)
    requires num.Valid()
    ensures !s.enabled ==> r == Done(s)
    ensures r.Abort? ==> s.enabled && r.cause == AdaptedScaleInvalid
    ensures s.enabled ==>
      var e := Estimate(num, s.logLambda, s.mu, s.scale, s.step, s.targetAlpha, value, logAlpha);
      (r.Done? <==> ScaleValid(e.proposalScale)) &&
      (r.Done? ==> r.value == s.(logLambda := e.logLambda.r, mu := e.mu, scale := e.scale,
                                 step := s.step + 1, proposalScale := e.proposalScale.r))
  {
    if !s.enabled then Done(s)
    else
      var e := Estimate(num, s.logLambda, s.mu, s.scale, s.step, s.targetAlpha, value, logAlpha);
      if !ScaleValid(e.proposalScale) then Abort(AdaptedScaleInvalid)
      else
        assert e.logLambda.Finite?;
        Done(s.(logLambda := e.logLambda.r, mu := e.mu, scale := e.scale,
                step := s.step + 1, proposalScale := e.proposalScale.r))
  }

  /**
   * Fed the clipped log acceptance of `metropolis_select`, an adaptor whose
   * variance estimate is positive never panics, and its estimate stays
   * positive: positivity is an invariant of the update.
   */
  lemma ClippedUpdateNeverPanics(num: Numerics, s: GlobalState, value: real, logAlpha: Float)
    requires num.Valid()
    requires s.scale > 0.0
    requires IsClipped(logAlpha)
    ensures Advance(num, s, value, logAlpha).Done?
    ensures Advance(num, s, value, logAlpha).value.scale > 0.0
    ensures s.enabled ==> Advance(num, s, value, logAlpha).value.proposalScale > 0.0
  {
    if s.enabled {
      AssertHolds(num, s.logLambda, s.mu, s.scale, s.step, s.targetAlpha, value, logAlpha);
    }
  }

  /** The decisions of `metropolis_select` therefore never make a positive-variance adaptor panic. */
  lemma SelectedUpdateNeverPanics(num: Numerics, s: GlobalState, lnU: Float, delta: Float, proposed: real, current: real)
    requires num.Valid()
    requires s.scale > 0.0
    requires MHU.MetropolisSelect(lnU, delta, proposed, current).Done?
    ensures var u := MHU.MetropolisSelect(lnU, delta, proposed, current).value;
      var r := Advance(num, s, u.value, u.logAlpha);
      r.Done? && r.value.scale > 0.0 && (s.enabled ==> r.value.proposalScale > 0.0)
  {
    var u := MHU.MetropolisSelect(lnU, delta, proposed, current).value;
    MinZeroClipped(delta);
    ClippedUpdateNeverPanics(num, s, u.value, u.logAlpha);
  }

  /** `reset`: the adapted fields go back to their initial values and adaptation is disabled. */
  function ResetState(s: GlobalState): (r: GlobalState)
    ensures s.targetAlpha == TargetAlpha ==>
      r == NewState(s.initialProposalScale, s.initialMu, s.initialScale)
    ensures !r.enabled && r.step == 0 && r.logLambda == 0.0
  {
    s.(logLambda := 0.0, proposalScale := s.initialProposalScale, step := 0,
       scale := s.initialScale, mu := s.initialMu, enabled := false)
  }

  class GlobalAdaptor {
    var logLambda: real
    var mu: real
    var scale: real
    var step: nat
    var proposalScale: real
    var initialProposalScale: real
    var initialMu: real
    var initialScale: real
    var targetAlpha: real
    var enabled: bool

    function Fields(): GlobalState
      reads this
    {
      GlobalState(logLambda, mu, scale, step, proposalScale,
                  initialProposalScale, initialMu, initialScale, targetAlpha, enabled)
    }

    constructor (initialProposalScale: real, mean: real, scale: real)
      ensures Fields() == NewState(initialProposalScale, mean, scale)
    {
      logLambda := 0.0;
      mu := mean;
      this.scale := scale;
      step := 0;
      proposalScale := initialProposalScale;
      targetAlpha := TargetAlpha;
      enabled := false;
      this.initialProposalScale := initialProposalScale;
      initialMu := mean;
      initialScale := scale;
    }

    /** The struct-update copies of `initial_scale` and `initial_mean_and_variance`. */
    constructor Copy(s: GlobalState)
      ensures Fields() == s
    {
      logLambda := s.logLambda;
      mu := s.mu;
      scale := s.scale;
      step := s.step;
      proposalScale := s.proposalScale;
      initialProposalScale := s.initialProposalScale;
      initialMu := s.initialMu;
      initialScale := s.initialScale;
      targetAlpha := s.targetAlpha;
      enabled := s.enabled;
    }

    method InitialScale(scale: real) returns (a: GlobalAdaptor)
      ensures fresh(a)
      ensures a.Fields() == Fields().(proposalScale := scale, initialProposalScale := scale)
    {
      a := new GlobalAdaptor.Copy(Fields().(proposalScale := scale, initialProposalScale := scale));
    }

    method InitialMeanAndVariance(mean: real, variance: real) returns (a: GlobalAdaptor)
      ensures fresh(a)
      ensures a.Fields() == Fields().(mu := mean, initialScale := variance, scale := variance, initialMu := mean)
    {
      a := new GlobalAdaptor.Copy(Fields().(mu := mean, initialScale := variance, scale := variance, initialMu := mean));
    }

    /** `update`; a failed assert is returned as `Abort` with the fields untouched. */
    method Update(num: Numerics, update: MHU.MetropolisUpdate<real>) returns (outcome: Fallible<()>)
      requires num.Valid()
      modifies this
      ensures var r := Advance(num, old(Fields()), update.value, update.logAlpha);
        match r
        case Done(s) => outcome == Done(()) && Fields() == s
        case Abort(c) => outcome == Abort(c) && Fields() == old(Fields())
    {
      if enabled {
        var newValue := update.value;
        var e := Estimate(num, logLambda, mu, scale, step, targetAlpha, newValue, update.logAlpha);
        if !(e.proposalScale.Finite? && e.proposalScale.r > 0.0) {
          return Abort(AdaptedScaleInvalid);
        }
        assert e.logLambda.Finite?;
        logLambda := e.logLambda.r;
        mu := e.mu;
        scale := e.scale;
        step := step + 1;
        proposalScale := e.proposalScale.r;
      }
      return Done(());
    }

    /** `scale()`: the proposal scale. */
    function Scale(): real
      reads this
    {
      proposalScale
    }

    method SetMode(mode: AdaptationMode)
      modifies this
      ensures Fields() == old(Fields()).(enabled := mode == AdaptationMode.Enabled)
      ensures Mode() == (if mode == AdaptationMode.Enabled then AdaptationStatus.Enabled else AdaptationStatus.Disabled)
    {
      match mode
      case Enabled => enabled := true;
      case Disabled => enabled := false;
    }

    /** `mode()`. */
    function Mode(): AdaptationStatus
      reads this
    {
      StatusOf(enabled)
    }

    method Reset()
      modifies this
      ensures Fields() == ResetState(old(Fields()))
    {
      logLambda := 0.0;
      proposalScale := initialProposalScale;
      step := 0;
      scale := initialScale;
      mu := initialMu;
      enabled := false;
    }
  }
}
