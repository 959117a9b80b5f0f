/**
 * The `adaptors` revision of the simple scale adaptor. It keeps the same
 * fields and the same update rule as the `adaptor` revision, takes an
 * `MHStatus` from `mh_accept_reject`, and reports an `AdaptState` instead
 * of a mode; it has no reset.
 */
module AdaptorsSimple {
  import opened Floats
  import opened AdaptStates
  import Spec = AdaptorSimple
  import MHS = MhAcceptReject

  class SimpleAdaptor {
    var alphaSum: Float
    var nUpdates: nat
    var adaptInterval: nat
    var scale: real
    var initialScale: real
    var enabled: bool

    function Fields(): Spec.SimpleState
      reads this
    {
      Spec.SimpleState(alphaSum, nUpdates, adaptInterval, scale, initialScale, enabled)
    }

    constructor (scale: real, adaptInterval: nat)
      ensures Fields() == Spec.NewState(scale, adaptInterval)
      ensures State() == Off
    {
      alphaSum := Zero;
      nUpdates := 0;
      this.adaptInterval := adaptInterval;
      this.scale := scale;
      initialScale := scale;
      enabled := false;
    }

    method Update<T>(num: Numerics, update: MHS.MHStatus<T>)
      modifies this
      ensures Fields() == Spec.Advance(num, old(Fields()), update.logAlpha)
    {
      if enabled {
        nUpdates := nUpdates + 1;
        var alpha := match update
          case Accepted(_, a) => Exp(num, a)
          case Rejected(_, a) => Exp(num, a);
        alphaSum := Add(alphaSum, alpha);
        if nUpdates >= adaptInterval {
          var alphaMean := DivPos(alphaSum, nUpdates as real);
          if Less(alphaMean, Finite(0.001)) {
            scale := scale * 0.01;
          } else if Less(alphaMean, Finite(0.05)) {
            scale := scale * 0.5;
          } else if Less(alphaMean, Finite(0.2)) {
            scale := scale * 0.2;
          } else if Less(Finite(0.95), alphaMean) {
            scale := scale * 10.0;
          } else if Less(Finite(0.75), alphaMean) {
            scale := scale * 2.0;
          } else if Less(Finite(0.5), alphaMean) {
            scale := scale * 1.1;
          }
          nUpdates := 0;
          alphaSum := Zero;
        }
      }
    }

    /** `state()`: whether adaptation is switched on. */
    function State(): AdaptState
      reads this
    {
      if enabled then On else Off
    }

    method Enable()
      modifies this
      ensures Fields() == old(Fields()).(enabled := true)
      ensures State() == On
    {
      enabled := true;
    }

    method Disable()
      modifies this
      ensures Fields() == old(Fields()).(enabled := false)
      ensures State() == Off
    {
      enabled := false;
    }

    /** `scale()`. */
    function Scale(): real
      reads this
    {
      scale
    }
  }
}
