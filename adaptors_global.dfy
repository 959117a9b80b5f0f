/**
 * The `adaptors` revision of the globally adaptive scale adaptor. It runs the
 * same recurrence as the `adaptor` revision on an `MHStatus`, keeps no
 * initial values (so it has no reset), and reports an `AdaptState`.
 */
module AdaptorsGlobal {
  import opened Floats
  import opened Outcomes
  import opened AdaptStates
  import RM = AdaptorGlobal
  import MHS = MhAcceptReject

  datatype GlobalState = GlobalState(
    logLambda: real, mu: real, scale: real, step: nat, proposalScale: real,
    targetAlpha: real, enabled: bool)

  function NewState(initialProposalScale: real, mean: real, scale: real): GlobalState {
    GlobalState(0.0, mean, scale, 0, initialProposalScale, RM.TargetAlpha, false)
  }

  /** `update` on the state, with the same recurrence and assert as the `adaptor` revision. */
  function Advance(num: Numerics, s: GlobalState, value: real, logAlpha: Float): (r: Fallible<GlobalState>)
    requires num.Valid()
    ensures !s.enabled ==> r == Done(s)
    ensures r.Abort? ==> s.enabled && r.cause == AdaptedScaleInvalid
    ensures s.enabled ==>
      var e := RM.Estimate(num, s.logLambda, s.mu, s.scale, s.step, s.targetAlpha, value, logAlpha);
      (r.Done? <==> RM.ScaleValid(e.proposalScale)) &&
      (r.Done? ==> r.value == s.(logLambda := e.logLambda.r, mu := e.mu, scale := e.scale,
                                 step := s.step + 1, proposalScale := e.proposalScale.r))
  {
    if !s.enabled then Done(s)
    else
      var e := RM.Estimate(num, s.logLambda, s.mu, s.scale, s.step, s.targetAlpha, value, logAlpha);
      if !RM.ScaleValid(e.proposalScale) then Abort(AdaptedScaleInvalid)
      else
        assert e.logLambda.Finite?;
        Done(s.(logLambda := e.logLambda.r, mu := e.mu, scale := e.scale,
                step := s.step + 1, proposalScale := e.proposalScale.r))
  }

  /**
   * `metropolis_proposal` always carries a clipped log acceptance, so an
   * adaptor with a positive variance estimate never panics on its status,
   * and the estimate stays positive.
   */
  lemma StatusUpdateNeverPanics(num: Numerics, s: GlobalState, lnU: Float, delta: Float, proposed: real, current: real)
    requires num.Valid()
    requires s.scale > 0.0
    ensures var u := MHS.MetropolisProposal(lnU, delta, proposed, current);
      var r := Advance(num, s, u.value, u.logAlpha);
      r.Done? && r.value.scale > 0.0 && (s.enabled ==> r.value.proposalScale > 0.0)
  {
    var u := MHS.MetropolisProposal(lnU, delta, proposed, current);
    RM.MinZeroClipped(delta);
    if s.enabled {
      RM.AssertHolds(num, s.logLambda, s.mu, s.scale, s.step, s.targetAlpha, u.value, u.logAlpha);
    }
  }

  class GlobalAdaptor {
    var logLambda: real
    var mu: real
    var scale: real
    var step: nat
    var proposalScale: real
    var targetAlpha: real
    var enabled: bool

    function Fields(): GlobalState
      reads this
    {
      GlobalState(logLambda, mu, scale, step, proposalScale, targetAlpha, enabled)
    }

    constructor (initialProposalScale: real, mean: real, scale: real)
      ensures Fields() == NewState(initialProposalScale, mean, scale)
    {
      logLambda := 0.0;
      mu := mean;
      this.scale := scale;
      step := 0;
      proposalScale := initialProposalScale;
      targetAlpha := RM.TargetAlpha;
      enabled := false;
    }

    /** The struct-update copies of `initial_scale` and `initial_mean_and_variance`. */
    constructor Copy(s: GlobalState)
      ensures Fields() == s
    {
      logLambda := s.logLambda;
      mu := s.mu;
      scale := s.scale;
      step := s.step;
      proposalScale := s.proposalScale;
      targetAlpha := s.targetAlpha;
      enabled := s.enabled;
    }

    method InitialScale(scale: real) returns (a: GlobalAdaptor)
      ensures fresh(a)
      ensures a.Fields() == Fields().(proposalScale := scale)
    {
      a := new GlobalAdaptor.Copy(Fields().(proposalScale := scale));
    }

    method InitialMeanAndVariance(mean: real, variance: real) returns (a: GlobalAdaptor)
      ensures fresh(a)
      ensures a.Fields() == Fields().(mu := mean, scale := variance)
    {
      a := new GlobalAdaptor.Copy(Fields().(mu := mean, scale := variance));
    }

    /** `update`; a failed assert is returned as `Abort` with the fields untouched. */
    method Update(num: Numerics, update: MHS.MHStatus<real>) returns (outcome: Fallible<()>)
      requires num.Valid()
      modifies this
      ensures var r := Advance(num, old(Fields()), update.value, update.logAlpha);
        match r
        case Done(s) => outcome == Done(()) && Fields() == s
        case Abort(c) => outcome == Abort(c) && Fields() == old(Fields())
    {
      if enabled {
        var newValue := update.value;
        var e := RM.Estimate(num, logLambda, mu, scale, step, targetAlpha, newValue, update.logAlpha);
        if !(e.proposalScale.Finite? && e.proposalScale.r > 0.0) {
          return Abort(AdaptedScaleInvalid);
        }
        assert e.logLambda.Finite?;
        logLambda := e.logLambda.r;
        mu := e.mu;
        scale := e.scale;
        step := step + 1;
        proposalScale := e.proposalScale.r;
      }
      return Done(());
    }

    /** `state()`: whether adaptation is switched on. */
    function State(): AdaptState
      reads this
    {
      if enabled then On else Off
    }

    method Enable()
      modifies this
      ensures Fields() == old(Fields()).(enabled := true)
      ensures State() == On
    {
      enabled := true;
    }

    method Disable()
      modifies this
      ensures Fields() == old(Fields()).(enabled := false)
      ensures State() == Off
    {
      enabled := false;
    }

    /** `scale()`: the proposal scale. */
    function Scale(): real
      reads this
    {
      proposalScale
    }
  }
}
