/**
 * `DiscreteSRWMBuilder`: the settings of a discrete stepper, held as a
 * value. The setters return updated copies; `build` makes a new stepper
 * with a new adaptor.
 */
module DiscreteBuilder {
  import opened Floats
  import opened Parameters
  import opened SrwmCore
  import opened DiscreteTypes
  import Spec = AdaptorSimple
  import AS = AdaptorsSimple
  import DiscreteSrwm

  datatype DiscreteSrwmBuilder<!M(!new)> = DiscreteSrwmBuilder(
    parameter: Parameter<int, M>, logLikelihood: M -> Float, kind: IntKind,
    initialScale: real, adaptInterval: nat)

  /** `new`: scale 1 and an adaptation interval of 100. */
  function New<M(!new)>(parameter: Parameter<int, M>, logLikelihood: M -> Float, kind: IntKind)
    : (b: DiscreteSrwmBuilder<M>)
    ensures b.parameter == parameter && b.logLikelihood == logLikelihood && b.kind == kind
    ensures b.initialScale == 1.0 && b.adaptInterval == 100
  {
    DiscreteSrwmBuilder(parameter, logLikelihood, kind, 1.0, 100)
  }

  /** `initial_scale`: only the scale changes. */
  function WithInitialScale<M(!new)>(b: DiscreteSrwmBuilder<M>, initialScale: real): (r: DiscreteSrwmBuilder<M>)
    ensures r.initialScale == initialScale
    ensures r.parameter == b.parameter && r.logLikelihood == b.logLikelihood && r.kind == b.kind
    ensures r.adaptInterval == b.adaptInterval
  {
    b.(initialScale := initialScale)
  }

  /** `adapt_interval`: only the interval changes. */
  function WithAdaptInterval<M(!new)>(b: DiscreteSrwmBuilder<M>, adaptInterval: nat): (r: DiscreteSrwmBuilder<M>)
    ensures r.adaptInterval == adaptInterval
    ensures r.parameter == b.parameter && r.logLikelihood == b.logLikelihood && r.kind == b.kind
    ensures r.initialScale == b.initialScale
  {
    b.(adaptInterval := adaptInterval)
  }

  /** The two setters touch different fields, so their order does not matter, and the last write of each wins. */
  lemma SettersIndependent<M(!new)>(b: DiscreteSrwmBuilder<M>, x: real, y: real, n: nat, m: nat)
    ensures WithAdaptInterval(WithInitialScale(b, x), n) == WithInitialScale(WithAdaptInterval(b, n), x)
    ensures WithInitialScale(WithInitialScale(b, x), y) == WithInitialScale(b, y)
    ensures WithAdaptInterval(WithAdaptInterval(b, n), m) == WithAdaptInterval(b, m)
  {
  }

  /** `build`: a stepper with empty caches and a new, disabled simple adaptor from the builder's settings. */
  method Build<M(!new)>(b: DiscreteSrwmBuilder<M>) returns (s: DiscreteSrwm.DiscreteSrwm<M>)
    ensures fresh(s) && fresh(s.adaptor)
    ensures s.parameter == b.parameter && s.logLikelihood == b.logLikelihood && s.kind == b.kind
    ensures s.Cached() == Empty
    ensures s.adaptor.Fields() == Spec.NewState(b.initialScale, b.adaptInterval) && !s.adaptor.enabled
  {
    var a := new AS.SimpleAdaptor(b.initialScale, b.adaptInterval);
    s := new DiscreteSrwm.DiscreteSrwm(b.parameter, b.logLikelihood, b.kind, a);
  }
}
