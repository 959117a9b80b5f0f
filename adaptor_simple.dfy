/**
 * The windowed scale adaptor of the `adaptor` revision. Every enabled update
 * adds exp(log alpha) to a running sum; when the window of `adaptInterval`
 * updates is full, the scale is multiplied by a factor chosen by the mean
 * acceptance in the window, and the window restarts.
 */
module AdaptorSimple {
  import opened Floats
  import opened AdaptationModes
  import MHU = MetropolisHastingsUtils

  /** The fields of the adaptor as one value. */
  datatype SimpleState = SimpleState(
    alphaSum: Float,
    nUpdates: nat,
    adaptInterval: nat,
    scale: real,
    initialScale: real,
    enabled: bool)

  /** The state `new(scale, adapt_interval)` builds. */
  function NewState(scale: real, adaptInterval: nat): SimpleState {
    SimpleState(Zero, 0, adaptInterval, scale, scale, false)
  }

  /**
   * The band factors: below 0.001, 0.05 and 0.2 the scale shrinks by 0.01, 0.5
   * and 0.2; above 0.95, 0.75 and 0.5 it grows by 10, 2 and 1.1; in between
   * (and for a NaN mean, which fails every comparison) it is kept.
   */
  function BandFactor(mean: Float): real {
    if Less(mean, Finite(0.001)) then 0.01
    else if Less(mean, Finite(0.05)) then 0.5
    else if Less(mean, Finite(0.2)) then 0.2
    else if Less(Finite(0.95), mean) then 10.0
    else if Less(Finite(0.75), mean) then 2.0
    else if Less(Finite(0.5), mean) then 1.1
    else 1.0
  }

  /**
   * The factor is one of the seven multipliers; it shrinks the scale exactly
   * when the mean is below 0.2, grows it exactly when the mean is above 0.5,
   * and keeps it for a mean in [0.2, 0.5] or a NaN mean.
   */
  lemma BandFactorBands(mean: Float)
    ensures var f := BandFactor(mean);
      && f > 0.0
      && (f == 0.01 || f == 0.5 || f == 0.2 || f == 10.0 || f == 2.0 || f == 1.1 || f == 1.0)
      && (mean.Finite? && 0.2 <= mean.r <= 0.5 ==> f == 1.0)
      && (mean.NaN? ==> f == 1.0)
      && (f < 1.0 <==> Less(mean, Finite(0.2)))
      && (f > 1.0 <==> Less(Finite(0.5), mean))
  {
  }

  /**
   * The new scale at the end of a window, band by band as `update` writes it:
   * each branch multiplies by its own constant.
   */
  function Rescaled(scale: real, mean: Float): (r: real)
    ensures scale > 0.0 ==> r > 0.0
  {
    if Less(mean, Finite(0.001)) then scale * 0.01
    else if Less(mean, Finite(0.05)) then scale * 0.5
    else if Less(mean, Finite(0.2)) then scale * 0.2
    else if Less(Finite(0.95), mean) then scale * 10.0
    else if Less(Finite(0.75), mean) then scale * 2.0
    else if Less(Finite(0.5), mean) then scale * 1.1
    else scale
  }

  /** The rescaling is multiplication by the band factor. */
  lemma RescaledIsProduct(scale: real, mean: Float)
    ensures Rescaled(scale, mean) == scale * BandFactor(mean)
  {
  }

  /** The factors are not monotone in the acceptance: a mean of 0.1 shrinks more than a mean of 0.04. */
  lemma BandFactorNotMonotone()
    ensures BandFactor(Finite(0.04)) == 0.5 && BandFactor(Finite(0.1)) == 0.2
  {
  }

  /** The effect of one `update` carrying the log acceptance `logAlpha`. */
  function Advance(num: Numerics, s: SimpleState, logAlpha: Float): (r: SimpleState)
    ensures !s.enabled ==> r == s
    ensures r.adaptInterval == s.adaptInterval && r.initialScale == s.initialScale && r.enabled == s.enabled
    ensures s.enabled && s.nUpdates + 1 < s.adaptInterval ==>
      r.nUpdates == s.nUpdates + 1 && r.alphaSum == Add(s.alphaSum, Exp(num, logAlpha)) && r.scale == s.scale
    ensures s.enabled && s.nUpdates + 1 >= s.adaptInterval ==>
      r.nUpdates == 0 && r.alphaSum == Zero &&
      r.scale == Rescaled(s.scale, DivPos(Add(s.alphaSum, Exp(num, logAlpha)), (s.nUpdates + 1) as real))
    ensures s.scale > 0.0 ==> r.scale > 0.0
    ensures s.nUpdates < s.adaptInterval ==> r.nUpdates < r.adaptInterval
  {
    if !s.enabled then s
    else
      var n := s.nUpdates + 1;
      var sum := Add(s.alphaSum, Exp(num, logAlpha));
      if n >= s.adaptInterval then
        s.(alphaSum := Zero, nUpdates := 0, scale := Rescaled(s.scale, DivPos(sum, n as real)))
      else
        s.(alphaSum := sum, nUpdates := n)
  }

  /** `reset`: counters cleared and the initial scale restored; `enabled` is left as it is. */
  function ResetState(s: SimpleState): (r: SimpleState)
    ensures r.nUpdates == 0 && r.alphaSum == Zero && r.scale == s.initialScale
    ensures r.enabled == s.enabled && r.adaptInterval == s.adaptInterval && r.initialScale == s.initialScale
  {
    s.(alphaSum := Zero, nUpdates := 0, scale := s.initialScale)
  }

  /** `n` updates that all carry the same log acceptance. */
  function AdvanceN(num: Numerics, s: SimpleState, logAlpha: Float, n: nat): SimpleState {
    if n == 0 then s else Advance(num, AdvanceN(num, s, logAlpha, n - 1), logAlpha)
  }

  function Pow(b: real, n: nat): real {
    if n == 0 then 1.0 else Pow(b, n - 1) * b
  }

  lemma {:induction false} AdvanceNAdditive(num: Numerics, s: SimpleState, logAlpha: Float, a: nat, b: nat)
    ensures AdvanceN(num, s, logAlpha, a + b) == AdvanceN(num, AdvanceN(num, s, logAlpha, a), logAlpha, b)
  {
    if b > 0 {
      AdvanceNAdditive(num, s, logAlpha, a, b - 1);
    }
  }

  /** c added to itself k times. */
  function Repeated(c: real, k: nat): real {
    if k == 0 then 0.0 else Repeated(c, k - 1) + c
  }

  lemma {:induction false} RepeatedIsProduct(c: real, k: nat)
    ensures Repeated(c, k) == c * k as real
  {
    if k > 0 {
      RepeatedIsProduct(c, k - 1);
    }
  }

  lemma RepeatedMean(c: real, k: nat)
    requires k >= 1
    ensures Repeated(c, k) / k as real == c
  {
    RepeatedIsProduct(c, k);
  }

  /** Inside a window, the sum of a constant acceptance c after k updates is c added k times. */
  lemma {:induction false} PartialWindow(num: Numerics, s: SimpleState, logAlpha: Float, c: real, k: nat)
    requires Exp(num, logAlpha) == Finite(c)
    requires s.enabled && s.nUpdates == 0 && s.alphaSum == Zero
    requires k < s.adaptInterval
    ensures AdvanceN(num, s, logAlpha, k) == s.(nUpdates := k, alphaSum := Finite(Repeated(c, k)))
  {
    if k > 0 {
      PartialWindow(num, s, logAlpha, c, k - 1);
      var prev := s.(nUpdates := k - 1, alphaSum := Finite(Repeated(c, k - 1)));
      assert AdvanceN(num, s, logAlpha, k) == Advance(num, prev, logAlpha);
      assert Add(prev.alphaSum, Exp(num, logAlpha)) == Finite(Repeated(c, k));
    }
  }

  /** A full window of a constant acceptance c multiplies the scale by the band factor of c. */
  lemma FullWindow(num: Numerics, s: SimpleState, logAlpha: Float, c: real)
    requires Exp(num, logAlpha) == Finite(c)
    requires s.enabled && s.nUpdates == 0 && s.alphaSum == Zero && s.adaptInterval >= 1
    ensures AdvanceN(num, s, logAlpha, s.adaptInterval) == s.(scale := s.scale * BandFactor(Finite(c)))
  {
    var w := s.adaptInterval;
    PartialWindow(num, s, logAlpha, c, w - 1);
    var prev := s.(nUpdates := w - 1, alphaSum := Finite(Repeated(c, w - 1)));
    WindowMean(c, w);
    assert AdvanceN(num, s, logAlpha, w) == Advance(num, prev, logAlpha);
    RescaledIsProduct(s.scale, Finite(c));
  }

  /** The mean over a window of w updates of a constant acceptance c is c. */
  lemma WindowMean(c: real, w: nat)
    requires w >= 1
    ensures DivPos(Add(Finite(Repeated(c, w - 1)), Finite(c)), w as real) == Finite(c)
  {
    assert Repeated(c, w - 1) + c == Repeated(c, w);
    RepeatedMean(c, w);
  }

  /** After `windows` full windows of a constant acceptance c the scale has been multiplied by its factor that often. */
  lemma FullWindowAtPower(num: Numerics, s: SimpleState, logAlpha: Float, c: real, k: nat)
    requires Exp(num, logAlpha) == Finite(c)
    requires s.enabled && s.nUpdates == 0 && s.alphaSum == Zero && s.adaptInterval >= 1
    requires s.scale == Pow(BandFactor(Finite(c)), k)
    ensures AdvanceN(num, s, logAlpha, s.adaptInterval) == s.(scale := Pow(BandFactor(Finite(c)), k + 1))
  {
    FullWindow(num, s, logAlpha, c);
    var f := BandFactor(Finite(c));
    assert Pow(f, k + 1) == s.scale * f;
  }

  /** `windows` windows of `w` updates each. */
  function Windows(windows: nat, w: nat): nat {
    if windows == 0 then 0 else w + Windows(windows - 1, w)
  }

  /**
   * Starting a window with the scale at f^k, where f is the band factor of a
   * constant acceptance c, `windows` full windows leave it at f^(k + windows).
   */
  lemma {:induction false} ManyWindows(num: Numerics, s: SimpleState, logAlpha: Float, c: real, k: nat, windows: nat)
    requires Exp(num, logAlpha) == Finite(c)
    requires s.enabled && s.nUpdates == 0 && s.alphaSum == Zero && s.adaptInterval >= 1
    requires s.scale == Pow(BandFactor(Finite(c)), k)
    ensures AdvanceN(num, s, logAlpha, Windows(windows, s.adaptInterval))
         == s.(scale := Pow(BandFactor(Finite(c)), k + windows))
    decreases windows
  {
    var w := s.adaptInterval;
    if windows > 0 {
      var next := s.(scale := Pow(BandFactor(Finite(c)), k + 1));
      AdvanceNAdditive(num, s, logAlpha, w, Windows(windows - 1, w));
      FullWindowAtPower(num, s, logAlpha, c, k);
      ManyWindows(num, next, logAlpha, c, k + 1, windows - 1);
    }
  }

  /** The expected-scaling test: 100 enabled updates with alpha = 0.51 and a window of 10 give 1.1^10. */
  lemma ExpectedScalingTest(num: Numerics, logAlpha: Float)
    requires Exp(num, logAlpha) == Finite(0.51)
    ensures AdvanceN(num, NewState(1.0, 10).(enabled := true), logAlpha, 100).scale == Pow(1.1, 10)
  {
    ManyWindows(num, NewState(1.0, 10).(enabled := true), logAlpha, 0.51, 0, 10);
  }

  lemma {:induction false} PowAboveOne(b: real, n: nat)
    requires b > 1.0 && n >= 1
    ensures Pow(b, n) > 1.0
  {
    if n > 1 {
      PowAboveOne(b, n - 1);
    }
  }

  /**
   * The tests that feed log acceptances 0.5 and 0.1: both give alpha above
   * 0.95, so each window multiplies the scale by 10 and the scale ends above 1.
   */
  lemma HighAcceptanceTest(num: Numerics, logAlpha: Float, c: real)
    requires Exp(num, logAlpha) == Finite(c) && c > 0.95
    ensures AdvanceN(num, NewState(1.0, 10).(enabled := true), logAlpha, 100).scale > 1.0
  {
    ManyWindows(num, NewState(1.0, 10).(enabled := true), logAlpha, c, 0, 10);
    PowAboveOne(10.0, 10);
  }

  class SimpleAdaptor {
    var alphaSum: Float
    var nUpdates: nat
    var adaptInterval: nat
    var scale: real
    var initialScale: real
    var enabled: bool

    function Fields(): SimpleState
      reads this
    {
      SimpleState(alphaSum, nUpdates, adaptInterval, scale, initialScale, enabled)
    }

    constructor (scale: real, adaptInterval: nat)
      ensures Fields() == NewState(scale, adaptInterval)
    {
      alphaSum := Zero;
      nUpdates := 0;
      this.adaptInterval := adaptInterval;
      this.scale := scale;
      initialScale := scale;
      enabled := false;
    }

    method Update<T>(num: Numerics, update: MHU.MetropolisUpdate<T>)
      modifies this
      ensures Fields() == Advance(num, old(Fields()), update.logAlpha)
    {
      if enabled {
        nUpdates := nUpdates + 1;
        var alpha := match update
          case Accepted(_, a) => Exp(num, a)
          case Rejected(_, a) => Exp(num, a);
        alphaSum := Add(alphaSum, alpha);
        if nUpdates >= adaptInterval {
          var alphaMean := DivPos(alphaSum, nUpdates as real);
          if Less(alphaMean, Finite(0.001)) {
            scale := scale * 0.01;
          } else if Less(alphaMean, Finite(0.05)) {
            scale := scale * 0.5;
          } else if Less(alphaMean, Finite(0.2)) {
            scale := scale * 0.2;
          } else if Less(Finite(0.95), alphaMean) {
            scale := scale * 10.0;
          } else if Less(Finite(0.75), alphaMean) {
            scale := scale * 2.0;
          } else if Less(Finite(0.5), alphaMean) {
            scale := scale * 1.1;
          }
          nUpdates := 0;
          alphaSum := Zero;
        }
      }
    }

    /** `scale()`. */
    function Scale(): real
      reads this
    {
      scale
    }

    method SetMode(mode: AdaptationMode)
      modifies this
      ensures Fields() == old(Fields()).(enabled := mode == AdaptationMode.Enabled)
      ensures Mode() == (if mode == AdaptationMode.Enabled then AdaptationStatus.Enabled else AdaptationStatus.Disabled)
    {
      match mode
      case Enabled => enabled := true;
      case Disabled => enabled := false;
    }

    /** `mode()`. */
    function Mode(): AdaptationStatus
      reads this
    {
      StatusOf(enabled)
    }

    method Reset()
      modifies this
      ensures Fields() == ResetState(old(Fields()))
    {
      alphaSum := Zero;
      nUpdates := 0;
      scale := initialScale;
    }
  }
}
