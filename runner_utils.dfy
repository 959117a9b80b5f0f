/**
 * `draw_from_stepper` of `runner/utils.rs`: draw an initial model from the
 * prior, warm up with adaptation on, then draw with adaptation off, keeping
 * every `thinning`-th state starting with the first.
 */
module RunnerUtils {
  import opened Floats
  import opened Outcomes
  import opened AdaptStates
  import opened SteppingAlgs

  /**
   * The scan of the draw phase taken block by block: each block is one kept
   * step followed by `thinning - 1` discarded ones, which is the sequence of
   * calls the scan and `step_by(thinning)` make.
   */
  function ThinnedDraws<S(!new), R(!new), M(!new)>(k: Kernel<S, R, M>, p: Position<S, R, M>, n: nat, thinning: nat)
    : Fallible<(Position<S, R, M>, seq<M>)>
    requires thinning > 0
  {
    if n == 0 then Done((p, []))
    else match ThinnedDraws(k, p, n - 1, thinning)
      case Abort(c) => Abort(c)
      case Done((q, ds)) =>
        match k.step(q.state, q.rng, q.model)
        case Abort(c) => Abort(c)
        case Done(a) =>
          match Steps(k, a, thinning - 1)
          case Abort(c) => Abort(c)
          case Done(b) => Done((b, ds + [a.model]))
  }

  lemma {:induction false} ThinnedDrawsAbortPersists<S(!new), R(!new), M(!new)>(k: Kernel<S, R, M>, p: Position<S, R, M>,
                                                                                j: nat, n: nat, thinning: nat)
    requires thinning > 0 && j <= n && ThinnedDraws(k, p, j, thinning).Abort?
    ensures ThinnedDraws(k, p, n, thinning) == ThinnedDraws(k, p, j, thinning)
    decreases n - j
  {
    if j < n {
      ThinnedDrawsAbortPersists(k, p, j, n - 1, thinning);
    }
  }

  /** The `i`-th of `ds` is the model after `i · thinning + 1` steps from `p`. */
  ghost predicate EveryNthFromFirst<S(!new), R(!new), M(!new)>(k: Kernel<S, R, M>, p: Position<S, R, M>, ds: seq<M>, thinning: nat) {
    forall i :: 0 <= i < |ds| ==>
      Steps(k, p, i * thinning + 1).Done? && ds[i] == Steps(k, p, i * thinning + 1).value.model
  }

  /**
   * The draw phase succeeds exactly when its `n · thinning` steps do; it keeps
   * `n` models, the `i`-th after `i · thinning + 1` steps, and ends where the
   * steps end.
   */
  lemma {:induction false} ThinnedDrawsAreEveryNth<S(!new), R(!new), M(!new)>(k: Kernel<S, R, M>, p: Position<S, R, M>,
                                                                              n: nat, thinning: nat)
    requires thinning > 0
    ensures ThinnedDraws(k, p, n, thinning).Done? <==> Steps(k, p, n * thinning).Done?
    ensures ThinnedDraws(k, p, n, thinning).Abort? ==>
      ThinnedDraws(k, p, n, thinning).cause == Steps(k, p, n * thinning).cause
    ensures ThinnedDraws(k, p, n, thinning).Done? ==>
      ThinnedDraws(k, p, n, thinning).value.0 == Steps(k, p, n * thinning).value &&
      |ThinnedDraws(k, p, n, thinning).value.1| == n
    ensures ThinnedDraws(k, p, n, thinning).Done? ==> EveryNthFromFirst(k, p, ThinnedDraws(k, p, n, thinning).value.1, thinning)
  {
    if n > 0 {
      var base := (n - 1) * thinning;
      ThinnedDrawsAreEveryNth(k, p, n - 1, thinning);
      assert base + 1 + (thinning - 1) == n * thinning;
      StepsAdditive(k, p, base, 1);
      StepsAdditive(k, p, base + 1, thinning - 1);
      var r := ThinnedDraws(k, p, n, thinning);
      if r.Done? {
        var prev := ThinnedDraws(k, p, n - 1, thinning).value;
        assert Steps(k, p, base) == Done(prev.0);
        var a := k.step(prev.0.state, prev.0.rng, prev.0.model).value;
        assert Steps(k, prev.0, 1) == Done(a);
        assert Steps(k, p, base + 1) == Done(a);
        assert r.value.1 == prev.1 + [a.model];
        forall i | 0 <= i < n
          ensures Steps(k, p, i * thinning + 1).Done?
          ensures r.value.1[i] == Steps(k, p, i * thinning + 1).value.model
        {
          if i < n - 1 {
            assert r.value.1[i] == prev.1[i];
          }
        }
      }
    }
  }

  /**
   * Everything `draw_from_stepper` does, from the stepper's state `s` and the
   * generator `rng`: the warm-up visits `nWarmup` states whether they are kept
   * or only the last one is, and `step_by(0)` panics once the warm-up is over.
   */
  function DrawFromStepperSpec<S(!new), R(!new), M(!new)>(k: Kernel<S, R, M>, s: S, rng: R, init: M,
                                                          nDraws: nat, nWarmup: nat, thinning: nat, keepWarmup: bool)
    : Fallible<seq<M>>
  {
    var (r1, prior) := k.drawPrior(s, rng, init);
    match Sampled(k, Position(k.adaptEnable(s), r1, prior), nWarmup, 1)
    case Abort(c) => Abort(c)
    case Done((q, warm)) =>
      if thinning == 0 then Abort(StepByZero)
      else match ThinnedDraws(k, Position(k.adaptDisable(q.state), q.rng, q.model), nDraws, thinning)
        case Abort(c) => Abort(c)
        case Done((_, draws)) => Done(if keepWarmup then warm + draws else draws)
  }

  /**
   * The output holds `nDraws` draws, preceded by the `nWarmup` warm-up states
   * when they are kept; the draws are every `thinning`-th state after the
   * warm-up, starting with the first.
   */
  lemma DrawFromStepperShape<S(!new), R(!new), M(!new)>(k: Kernel<S, R, M>, s: S, rng: R, init: M,
                                                        nDraws: nat, nWarmup: nat, thinning: nat, keepWarmup: bool)
    requires DrawFromStepperSpec(k, s, rng, init, nDraws, nWarmup, thinning, keepWarmup).Done?
    ensures thinning > 0
    ensures var out := DrawFromStepperSpec(k, s, rng, init, nDraws, nWarmup, thinning, keepWarmup).value;
      |out| == nDraws + (if keepWarmup then nWarmup else 0)
    ensures var (r1, prior) := k.drawPrior(s, rng, init);
      Steps(k, Position(k.adaptEnable(s), r1, prior), nWarmup).Done?
    ensures var out := DrawFromStepperSpec(k, s, rng, init, nDraws, nWarmup, thinning, keepWarmup).value;
      var (r1, prior) := k.drawPrior(s, rng, init);
      var q := Steps(k, Position(k.adaptEnable(s), r1, prior), nWarmup).value;
      var offset := if keepWarmup then nWarmup else 0;
      EveryNthFromFirst(k, Position(k.adaptDisable(q.state), q.rng, q.model), out[offset..], thinning)
  {
    var (r1, prior) := k.drawPrior(s, rng, init);
    var p0 := Position(k.adaptEnable(s), r1, prior);
    SampleIsThinnedRun(k, p0, nWarmup, 1);
    assert nWarmup * 1 == nWarmup;
    var q := Sampled(k, p0, nWarmup, 1).value.0;
    ThinnedDrawsAreEveryNth(k, Position(k.adaptDisable(q.state), q.rng, q.model), nDraws, thinning);
    var warm := Sampled(k, p0, nWarmup, 1).value.1;
    var draws := ThinnedDraws(k, Position(k.adaptDisable(q.state), q.rng, q.model), nDraws, thinning).value.1;
    if keepWarmup {
      assert (warm + draws)[nWarmup..] == draws;
    }
  }

  /** A thinning of 0 panics once a successful warm-up is over. */
  lemma ZeroThinningPanics<S(!new), R(!new), M(!new)>(k: Kernel<S, R, M>, s: S, rng: R, init: M,
                                                      nDraws: nat, nWarmup: nat, keepWarmup: bool)
    requires var (r1, prior) := k.drawPrior(s, rng, init);
      Steps(k, Position(k.adaptEnable(s), r1, prior), nWarmup).Done?
    ensures DrawFromStepperSpec(k, s, rng, init, nDraws, nWarmup, 0, keepWarmup) == Abort(StepByZero)
  {
    var (r1, prior) := k.drawPrior(s, rng, init);
    SampleIsThinnedRun(k, Position(k.adaptEnable(s), r1, prior), nWarmup, 1);
    assert nWarmup * 1 == nWarmup;
  }

  /** `draw_from_stepper` on a stepper that owns its state; the generator is passed in. */
  method DrawFromStepper<S(!new), R(!new), M(!new)>(stepper: Stepper<S, R, M>, rng: R, init: M,
                                                    nDraws: nat, nWarmup: nat, thinning: nat, keepWarmup: bool)
    returns (r: Fallible<seq<M>>)
    modifies stepper
    ensures r == DrawFromStepperSpec(stepper.kernel, old(stepper.state), rng, init, nDraws, nWarmup, thinning, keepWarmup)
  {
    ghost var k := stepper.kernel;
    ghost var s0 := stepper.state;
    var (g, priorSample) := stepper.DrawPrior(rng, init);

    stepper.AdaptEnable();
    ghost var p0 := Position(stepper.state, g, priorSample);
    var m := priorSample;
    var warmupDraws: seq<M> := [];
    ghost var visited: seq<M> := [];
    var i := 0;
    while i < nWarmup
      invariant 0 <= i <= nWarmup && stepper.kernel == k
      invariant Sampled(k, p0, i, 1) == Done((Position(stepper.state, g, m), visited))
      invariant keepWarmup ==> warmupDraws == visited
      invariant !keepWarmup ==> warmupDraws == []
    {
      OneStep(k, Position(stepper.state, g, m));
      var stepped := stepper.Step(g, m);
      if stepped.Abort? {
        SampledAbortPersists(k, p0, i + 1, nWarmup, 1);
        return Abort(stepped.cause);
      }
      g, m := stepped.value.0, stepped.value.1;
      visited := visited + [m];
      if keepWarmup {
        warmupDraws := warmupDraws + [m];
      }
      i := i + 1;
    }
    if !keepWarmup {
      warmupDraws := [m];
    }

    stepper.AdaptDisable();
    var warmedModel := if |warmupDraws| == 0 then priorSample else warmupDraws[|warmupDraws| - 1];
    assert warmedModel == m by {
      if keepWarmup && nWarmup > 0 {
        assert Sampled(k, p0, nWarmup, 1).value.1 == Sampled(k, p0, nWarmup - 1, 1).value.1 + [m];
      }
    }

    if thinning == 0 {
      return Abort(StepByZero);
    }
    var drawn := ThinnedDrawLoop(stepper, g, m, nDraws, thinning);
    if drawn.Abort? {
      return Abort(drawn.cause);
    }
    var draws := drawn.value;
    if keepWarmup {
      return Done(warmupDraws + draws);
    }
    return Done(draws);
  }

  /**
   * The draw loop of `draw_from_stepper`: per kept draw, one step whose model
   * is kept and `thinning - 1` steps that are not.
   */
  method ThinnedDrawLoop<S(!new), R(!new), M(!new)>(stepper: Stepper<S, R, M>, rng: R, model: M, nDraws: nat, thinning: nat)
    returns (r: Fallible<seq<M>>)
    requires thinning > 0
    modifies stepper
    ensures match ThinnedDraws(stepper.kernel, Position(old(stepper.state), rng, model), nDraws, thinning)
      case Done((q, ds)) => r == Done(ds) && stepper.state == q.state
      case Abort(c) => r == Abort(c)
  {
    ghost var k := stepper.kernel;
    ghost var q1 := Position(stepper.state, rng, model);
    var g, m := rng, model;
    var draws: seq<M> := [];
    var j := 0;
    while j < nDraws
      invariant 0 <= j <= nDraws && stepper.kernel == k
      invariant ThinnedDraws(k, q1, j, thinning) == Done((Position(stepper.state, g, m), draws))
    {
      var kept := stepper.Step(g, m);
      if kept.Abort? {
        ThinnedDrawsAbortPersists(k, q1, j + 1, nDraws, thinning);
        return Abort(kept.cause);
      }
      g, m := kept.value.0, kept.value.1;
      draws := draws + [m];
      var skipped := stepper.MultipleSteps(g, m, thinning - 1);
      if skipped.Abort? {
        ThinnedDrawsAbortPersists(k, q1, j + 1, nDraws, thinning);
        return Abort(skipped.cause);
      }
      g, m := skipped.value.0, skipped.value.1;
      j := j + 1;
    }
    return Done(draws);
  }

  /** A stepper that counts its steps in the model. */
  function Counter(): Kernel<int, int, int> {
    Kernel(
      (s, rng, m) => Done(Position(s, rng, m + 1)),
      (s, rng, m, ll) => Done(Moved(s, rng, m + 1, Zero)),
      (s, rng, m) => (rng, m),
      s => s,
      s => s,
      s => NotApplicable)
  }

  /**
   * The two thinning rules keep different states: from a counter at 0, two
   * draws thinned by 2 are the states after 1 and 3 steps here, and after 2
   * and 4 steps in the stepper's own `sample`.
   */
  lemma ThinningOffsetsDiffer()
    ensures ThinnedDraws(Counter(), Position(0, 0, 0), 2, 2) == Done((Position(0, 0, 4), [1, 3]))
    ensures Sampled(Counter(), Position(0, 0, 0), 2, 2) == Done((Position(0, 0, 4), [2, 4]))
  {
    var k := Counter();
    var p := Position(0, 0, 0);
    assert k.step(0, 0, 0) == Done(Position(0, 0, 1));
    assert k.step(0, 0, 1) == Done(Position(0, 0, 2));
    assert k.step(0, 0, 2) == Done(Position(0, 0, 3));
    assert k.step(0, 0, 3) == Done(Position(0, 0, 4));
    assert Steps(k, Position(0, 0, 1), 0) == Done(Position(0, 0, 1));
    assert Steps(k, Position(0, 0, 2), 1) == Done(Position(0, 0, 3));
    assert Steps(k, Position(0, 0, 1), 1) == Done(Position(0, 0, 2));
    assert Steps(k, Position(0, 0, 3), 1) == Done(Position(0, 0, 4));
    assert Steps(k, Position(0, 0, 0), 2) == Done(Position(0, 0, 2));
    assert Steps(k, Position(0, 0, 2), 2) == Done(Position(0, 0, 4));
    assert ThinnedDraws(k, p, 0, 2) == Done((p, []));
    assert [] + [1] == [1] && [1] + [3] == [1, 3];
    assert [] + [2] == [2] && [2] + [4] == [2, 4];
    assert ThinnedDraws(k, p, 1, 2) == Done((Position(0, 0, 2), [1]));
    assert Sampled(k, p, 0, 2) == Done((p, []));
    assert Sampled(k, p, 1, 2) == Done((Position(0, 0, 2), [2]));
  }
}
