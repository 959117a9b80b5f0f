/**
 * The runner of `runner/mod.rs`: its settings, and `run`, which draws one
 * seed per chain from the caller's generator and then, per chain, builds a
 * stepper, warms it up with adaptation on and samples with adaptation off.
 * The chains are run one after the other here.
 */
module Runners {
  import opened Outcomes
  import opened SteppingAlgs

  datatype InitializationMode<M> = DrawFromPrior | Provided(model: M)

  /** The settings of a runner; the builder is represented by the stepper its `build` produces. */
  datatype Runner<!S(!new), !R(!new), !M(!new)> = Runner(
    draws: nat,
    warmUp: nat,
    thinning: nat,
    chains: nat,
    builder: Member<S, R, M>,
    init: InitializationMode<M>,
    keepWarmUp: bool)

  /** What the asserting setters guarantee: at least one chain, and a thinning of at least one. */
  predicate Valid<S(!new), R(!new), M(!new)>(r: Runner<S, R, M>) {
    r.chains >= 1 && r.thinning >= 1
  }

  /** `Runner::new`: 2000 draws after 1000 warm-up steps, one chain, no thinning, initial model from the prior. */
  function New<S(!new), R(!new), M(!new)>(builder: Member<S, R, M>): (r: Runner<S, R, M>)
    ensures Valid(r)
    ensures r.builder == builder && r.init == DrawFromPrior && !r.keepWarmUp
    ensures r.draws == 2000 && r.warmUp == 1000 && r.thinning == 1 && r.chains == 1
  {
    Runner(2000, 1000, 1, 1, builder, DrawFromPrior, false)
  }

  function Draws<S(!new), R(!new), M(!new)>(r: Runner<S, R, M>, samples: nat): (r': Runner<S, R, M>)
    ensures Valid(r') <==> Valid(r)
    ensures r'.draws == samples && r'.(draws := r.draws) == r
  {
    r.(draws := samples)
  }

  function Warmup<S(!new), R(!new), M(!new)>(r: Runner<S, R, M>, warmup: nat): (r': Runner<S, R, M>)
    ensures Valid(r') <==> Valid(r)
    ensures r'.warmUp == warmup && r'.(warmUp := r.warmUp) == r
  {
    r.(warmUp := warmup)
  }

  /** `chains` asserts that at least one chain is asked for. */
  function Chains<S(!new), R(!new), M(!new)>(r: Runner<S, R, M>, chains: nat): (r': Fallible<Runner<S, R, M>>)
    ensures r'.Abort? <==> chains == 0
    ensures r'.Abort? ==> r'.cause == NoChains
    ensures r'.Done? ==> r'.value.chains == chains && r'.value.(chains := r.chains) == r
    ensures r'.Done? && Valid(r) ==> Valid(r'.value)
  {
    if chains >= 1 then Done(r.(chains := chains)) else Abort(NoChains)
  }

  /** `thinning` asserts that the thinning is not zero. */
  function Thinning<S(!new), R(!new), M(!new)>(r: Runner<S, R, M>, thinning: nat): (r': Fallible<Runner<S, R, M>>)
    ensures r'.Abort? <==> thinning == 0
    ensures r'.Abort? ==> r'.cause == ZeroThinning
    ensures r'.Done? ==> r'.value.thinning == thinning && r'.value.(thinning := r.thinning) == r
    ensures r'.Done? && Valid(r) ==> Valid(r'.value)
  {
    if thinning != 0 then Done(r.(thinning := thinning)) else Abort(ZeroThinning)
  }

  function KeepWarmUp<S(!new), R(!new), M(!new)>(r: Runner<S, R, M>): (r': Runner<S, R, M>)
    ensures Valid(r') <==> Valid(r)
    ensures r'.keepWarmUp && r'.(keepWarmUp := r.keepWarmUp) == r
  {
    r.(keepWarmUp := true)
  }

  function DiscardWarmUp<S(!new), R(!new), M(!new)>(r: Runner<S, R, M>): (r': Runner<S, R, M>)
    ensures Valid(r') <==> Valid(r)
    ensures !r'.keepWarmUp && r'.(keepWarmUp := r.keepWarmUp) == r
  {
    r.(keepWarmUp := false)
  }

  function InitialModel<S(!new), R(!new), M(!new)>(r: Runner<S, R, M>, model: M): (r': Runner<S, R, M>)
    ensures Valid(r') <==> Valid(r)
    ensures r'.init == Provided(model) && r'.(init := r.init) == r
  {
    r.(init := Provided(model))
  }

  /** Keeping and discarding the warm-up undo each other. */
  lemma KeepThenDiscard<S(!new), R(!new), M(!new)>(r: Runner<S, R, M>)
    ensures DiscardWarmUp(KeepWarmUp(r)) == r.(keepWarmUp := false)
    ensures KeepWarmUp(DiscardWarmUp(r)) == r.(keepWarmUp := true)
  {
  }

  /** The seeds `run` draws, one per chain, in order, and the generator it leaves behind. */
  function Seeds<R(!new)>(nextSeed: R -> (nat, R), rng: R, n: nat): (r: (seq<nat>, R))
    ensures |r.0| == n
  {
    if n == 0 then ([], rng)
    else
      var (seeds, g) := Seeds(nextSeed, rng, n - 1);
      var (seed, g2) := nextSeed(g);
      (seeds + [seed], g2)
  }

  /** The body of the per-chain closure of `run`, for one seed. */
  function Chain<S(!new), R(!new), M(!new)>(r: Runner<S, R, M>, seed: nat, seedFromU64: nat -> R, default: M)
    : Fallible<seq<M>>
  {
    var k := r.builder.kernel;
    var s := r.builder.state;
    var (g, initModel) := match r.init
      case DrawFromPrior => k.drawPrior(s, seedFromU64(seed), default)
      case Provided(m) => (seedFromU64(seed), m);
    match Sampled(k, Position(k.adaptEnable(s), g, initModel), r.warmUp, 1)
    case Abort(c) => Abort(c)
    case Done((q, warmup)) =>
      if |warmup| == 0 then Abort(UnwrapNone)
      else match Sampled(k, Position(k.adaptDisable(q.state), q.rng, warmup[|warmup| - 1]), r.draws, r.thinning)
        case Abort(c) => Abort(c)
        case Done((_, sample)) => Done(if r.keepWarmUp then warmup + sample else sample)
  }

  /** Without warm-up there is no last warm-up state to start sampling from, so every chain panics. */
  lemma NoWarmUpPanics<S(!new), R(!new), M(!new)>(r: Runner<S, R, M>, seed: nat, seedFromU64: nat -> R, default: M)
    requires r.warmUp == 0
    ensures Chain(r, seed, seedFromU64, default) == Abort(UnwrapNone)
  {
  }

  /**
   * A chain holds `draws` models, preceded by the `warmUp` warm-up states
   * when they are kept; the draws are the states after `thinning`,
   * `2 · thinning`, … steps of the disabled stepper from the end of the
   * warm-up.
   */
  lemma ChainShape<S(!new), R(!new), M(!new)>(r: Runner<S, R, M>, seed: nat, seedFromU64: nat -> R, default: M)
    requires Chain(r, seed, seedFromU64, default).Done?
    ensures r.warmUp >= 1
    ensures |Chain(r, seed, seedFromU64, default).value| == r.draws + (if r.keepWarmUp then r.warmUp else 0)
    ensures var k := r.builder.kernel;
      var s := r.builder.state;
      var (g, initModel) := match r.init
        case DrawFromPrior => k.drawPrior(s, seedFromU64(seed), default)
        case Provided(m) => (seedFromU64(seed), m);
      var start := Position(k.adaptEnable(s), g, initModel);
      Steps(k, start, r.warmUp).Done? &&
      var q := Steps(k, start, r.warmUp).value;
      ThinnedRun(k, Position(k.adaptDisable(q.state), q.rng, q.model),
                 Chain(r, seed, seedFromU64, default).value[if r.keepWarmUp then r.warmUp else 0..], r.thinning)
  {
    var k := r.builder.kernel;
    var s := r.builder.state;
    var (g, initModel) := match r.init
      case DrawFromPrior => k.drawPrior(s, seedFromU64(seed), default)
      case Provided(m) => (seedFromU64(seed), m);
    var start := Position(k.adaptEnable(s), g, initModel);
    SampleIsThinnedRun(k, start, r.warmUp, 1);
    assert r.warmUp * 1 == r.warmUp;
    var (q, warmup) := Sampled(k, start, r.warmUp, 1).value;
    assert warmup[|warmup| - 1] == q.model by {
      assert warmup == Sampled(k, start, r.warmUp - 1, 1).value.1 + [q.model];
    }
    var q1 := Position(k.adaptDisable(q.state), q.rng, q.model);
    SampleIsThinnedRun(k, q1, r.draws, r.thinning);
    var sample := Sampled(k, q1, r.draws, r.thinning).value.1;
    if r.keepWarmUp {
      assert (warmup + sample)[r.warmUp..] == sample;
    }
  }

  /** `run` as a whole: chain `i` is the chain of the `i`-th seed; the first panic in chain order ends it. */
  function RunChains<S(!new), R(!new), M(!new)>(r: Runner<S, R, M>, seeds: seq<nat>, seedFromU64: nat -> R, default: M, n: nat)
    : Fallible<seq<seq<M>>>
    requires n <= |seeds|
  {
    if n == 0 then Done([])
    else match RunChains(r, seeds, seedFromU64, default, n - 1)
      case Abort(c) => Abort(c)
      case Done(done) =>
        match Chain(r, seeds[n - 1], seedFromU64, default)
        case Abort(c) => Abort(c)
        case Done(chain) => Done(done + [chain])
  }

  lemma {:induction false} RunChainsAbortPersists<S(!new), R(!new), M(!new)>(r: Runner<S, R, M>, seeds: seq<nat>,
                                                                            seedFromU64: nat -> R, default: M, j: nat, n: nat)
    requires j <= n <= |seeds| && RunChains(r, seeds, seedFromU64, default, j).Abort?
    ensures RunChains(r, seeds, seedFromU64, default, n) == RunChains(r, seeds, seedFromU64, default, j)
    decreases n - j
  {
    if j < n {
      RunChainsAbortPersists(r, seeds, seedFromU64, default, j, n - 1);
    }
  }

  /** A finished run has one sample per seed, the `i`-th being the chain of the `i`-th seed alone. */
  lemma {:induction false} RunChainsShape<S(!new), R(!new), M(!new)>(r: Runner<S, R, M>, seeds: seq<nat>,
                                                                    seedFromU64: nat -> R, default: M, n: nat)
    requires n <= |seeds| && RunChains(r, seeds, seedFromU64, default, n).Done?
    ensures |RunChains(r, seeds, seedFromU64, default, n).value| == n
    ensures forall i :: 0 <= i < n ==>
      Chain(r, seeds[i], seedFromU64, default).Done? &&
      RunChains(r, seeds, seedFromU64, default, n).value[i] == Chain(r, seeds[i], seedFromU64, default).value
  {
    if n > 0 {
      RunChainsShape(r, seeds, seedFromU64, default, n - 1);
      var prev := RunChains(r, seeds, seedFromU64, default, n - 1).value;
      var cur := RunChains(r, seeds, seedFromU64, default, n).value;
      assert cur == prev + [cur[n - 1]];
      forall i | 0 <= i < n - 1
        ensures cur[i] == prev[i]
      {
      }
    }
  }

  /** The per-chain closure: a new stepper from the builder, its own generator from the seed. */
  method RunChain<S(!new), R(!new), M(!new)>(r: Runner<S, R, M>, seed: nat, seedFromU64: nat -> R, default: M)
    returns (sample: Fallible<seq<M>>)
    ensures sample == Chain(r, seed, seedFromU64, default)
  {
    var rng := seedFromU64(seed);
    var stepper := new Stepper(r.builder.kernel, r.builder.state);
    var initModel;
    match r.init {
      case DrawFromPrior =>
        var (g, m) := stepper.DrawPrior(rng, default);
        rng, initModel := g, m;
      case Provided(m) =>
        initModel := m;
    }

    stepper.AdaptEnable();
    var warmup := stepper.Sample(rng, initModel, r.warmUp, 1);
    if warmup.Abort? {
      return Abort(warmup.cause);
    }
    stepper.AdaptDisable();

    var (g, warm) := warmup.value;
    if |warm| == 0 {
      return Abort(UnwrapNone);
    }
    var drawn := stepper.Sample(g, warm[|warm| - 1], r.draws, r.thinning);
    if drawn.Abort? {
      return Abort(drawn.cause);
    }
    if r.keepWarmUp {
      return Done(warm + drawn.value.1);
    }
    return Done(drawn.value.1);
  }

  /** `run`: seeds first, then the chains in seed order; the master generator is returned advanced. */
  method Run<S(!new), R(!new), M(!new)>(r: Runner<S, R, M>, rng: R, nextSeed: R -> (nat, R), seedFromU64: nat -> R, default: M)
    returns (samples: Fallible<seq<seq<M>>>, rngOut: R)
    ensures (samples, rngOut) == (RunChains(r, Seeds(nextSeed, rng, r.chains).0, seedFromU64, default, r.chains),
                                  Seeds(nextSeed, rng, r.chains).1)
  {
    var seeds: seq<nat> := [];
    rngOut := rng;
    var i := 0;
    while i < r.chains
      invariant 0 <= i <= r.chains
      invariant Seeds(nextSeed, rng, i) == (seeds, rngOut)
    {
      var (seed, g) := nextSeed(rngOut);
      seeds, rngOut := seeds + [seed], g;
      i := i + 1;
    }

    var done: seq<seq<M>> := [];
    var j := 0;
    while j < |seeds|
      invariant 0 <= j <= |seeds| == r.chains
      invariant RunChains(r, seeds, seedFromU64, default, j) == Done(done)
    {
      var chain := RunChain(r, seeds[j], seedFromU64, default);
      if chain.Abort? {
        RunChainsAbortPersists(r, seeds, seedFromU64, default, j + 1, |seeds|);
        return Abort(chain.cause), rngOut;
      }
      done := done + [chain.value];
      j := j + 1;
    }
    return Done(done), rngOut;
  }
}
