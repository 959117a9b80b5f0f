/**
 * The stepper interface of `stepper_traits.rs` and its two provided methods.
 * A stepper is a record of its operations over an explicit state `S`; the
 * random number generator is a value `R` threaded through every call, so a
 * step returns the generator it leaves behind.
 */
module SteppingAlgs {
  import opened Floats
  import opened Outcomes
  import opened AdaptStates

  /** A stepper state, the generator and the model between two calls. */
  datatype Position<S, R, M> = Position(state: S, rng: R, model: M)

  /** What `step_with_log_likelihood` leaves behind, with the log-likelihood it returns. */
  datatype Moved<S, R, M> = Moved(state: S, rng: R, model: M, ll: Float)

  /** The required methods of `SteppingAlg`, as functions of the stepper's state. */
  datatype Kernel<!S(!new), !R(!new), !M(!new)> = Kernel(
    step: (S, R, M) -> Fallible<Position<S, R, M>>,
    stepWithLogLikelihood: (S, R, M, Option<Float>) -> Fallible<Moved<S, R, M>>,
    drawPrior: (S, R, M) -> (R, M),
    adaptEnable: S -> S,
    adaptDisable: S -> S,
    adaptState: S -> AdaptState)

  /** A stepper as a value: its operations and its current state. */
  datatype Member<!S(!new), !R(!new), !M(!new)> = Member(kernel: Kernel<S, R, M>, state: S)

  /** Where `n` calls of `step` in sequence lead from `p`. */
  function Steps<S(!new), R(!new), M(!new)>(k: Kernel<S, R, M>, p: Position<S, R, M>, n: nat): Fallible<Position<S, R, M>> {
    if n == 0 then Done(p)
    else match Steps(k, p, n - 1)
      case Abort(c) => Abort(c)
      case Done(q) => k.step(q.state, q.rng, q.model)
  }

  /** `n` more steps after a possibly failed run. */
  function StepsFrom<S(!new), R(!new), M(!new)>(k: Kernel<S, R, M>, r: Fallible<Position<S, R, M>>, n: nat)
    : Fallible<Position<S, R, M>>
  {
    match r
    case Abort(c) => Abort(c)
    case Done(q) => Steps(k, q, n)
  }

  /** `a + b` steps are `a` steps followed by `b` steps. */
  lemma {:induction false} StepsAdditive<S(!new), R(!new), M(!new)>(k: Kernel<S, R, M>, p: Position<S, R, M>, a: nat, b: nat)
    ensures Steps(k, p, a + b) == StepsFrom(k, Steps(k, p, a), b)
  {
    if b > 0 {
      StepsAdditive(k, p, a, b - 1);
      assert a + b - 1 == a + (b - 1);
    }
  }

  /** One step is one call of `step`. */
  lemma OneStep<S(!new), R(!new), M(!new)>(k: Kernel<S, R, M>, q: Position<S, R, M>)
    ensures Steps(k, q, 1) == k.step(q.state, q.rng, q.model)
  {
  }

  /** A run that panicked stays panicked. */
  lemma {:induction false} StepsAbortPersists<S(!new), R(!new), M(!new)>(k: Kernel<S, R, M>, p: Position<S, R, M>, j: nat, n: nat)
    requires j <= n && Steps(k, p, j).Abort?
    ensures Steps(k, p, n) == Steps(k, p, j)
    decreases n - j
  {
    if j < n {
      StepsAbortPersists(k, p, j, n - 1);
    }
  }

  /**
   * The scan of `sample`: `size` times, `thinning` steps from the last kept
   * model, keeping the model reached.
   */
  function Sampled<S(!new), R(!new), M(!new)>(k: Kernel<S, R, M>, p: Position<S, R, M>, size: nat, thinning: nat)
    : Fallible<(Position<S, R, M>, seq<M>)>
  {
    if size == 0 then Done((p, []))
    else match Sampled(k, p, size - 1, thinning)
      case Abort(c) => Abort(c)
      case Done((q, ms)) =>
        match Steps(k, q, thinning)
        case Abort(c) => Abort(c)
        case Done(q2) => Done((q2, ms + [q2.model]))
  }

  lemma {:induction false} SampledAbortPersists<S(!new), R(!new), M(!new)>(k: Kernel<S, R, M>, p: Position<S, R, M>,
                                                                          j: nat, n: nat, thinning: nat)
    requires j <= n && Sampled(k, p, j, thinning).Abort?
    ensures Sampled(k, p, n, thinning) == Sampled(k, p, j, thinning)
    decreases n - j
  {
    if j < n {
      SampledAbortPersists(k, p, j, n - 1, thinning);
    }
  }

  /** The `i`-th of `ms` is the model after `(i + 1) · thinning` steps from `p`. */
  ghost predicate ThinnedRun<S(!new), R(!new), M(!new)>(k: Kernel<S, R, M>, p: Position<S, R, M>, ms: seq<M>, thinning: nat) {
    forall i :: 0 <= i < |ms| ==>
      Steps(k, p, (i + 1) * thinning).Done? && ms[i] == Steps(k, p, (i + 1) * thinning).value.model
  }

  /**
   * A sample of `size` succeeds exactly when `size · thinning` steps do. It
   * then holds exactly `size` models, the `i`-th being the model after
   * `(i + 1) · thinning` steps, and ends where those steps end; when it
   * panics, it panics as the steps do.
   */
  lemma {:induction false} SampleIsThinnedRun<S(!new), R(!new), M(!new)>(k: Kernel<S, R, M>, p: Position<S, R, M>,
                                                                        size: nat, thinning: nat)
    ensures Sampled(k, p, size, thinning).Done? <==> Steps(k, p, size * thinning).Done?
    ensures Sampled(k, p, size, thinning).Abort? ==>
      Sampled(k, p, size, thinning).cause == Steps(k, p, size * thinning).cause
    ensures Sampled(k, p, size, thinning).Done? ==>
      Sampled(k, p, size, thinning).value.0 == Steps(k, p, size * thinning).value &&
      |Sampled(k, p, size, thinning).value.1| == size
    ensures Sampled(k, p, size, thinning).Done? ==> ThinnedRun(k, p, Sampled(k, p, size, thinning).value.1, thinning)
  {
    if size > 0 {
      SampleIsThinnedRun(k, p, size - 1, thinning);
      assert (size - 1) * thinning + thinning == size * thinning;
      assert (size - 1 + 1) * thinning == size * thinning;
      StepsAdditive(k, p, (size - 1) * thinning, thinning);
      var r := Sampled(k, p, size, thinning);
      if r.Done? {
        var prev := Sampled(k, p, size - 1, thinning).value;
        assert ThinnedRun(k, p, prev.1, thinning);
        assert r.value.1 == prev.1 + [r.value.0.model];
        assert |r.value.1| == size;
        assert Steps(k, prev.0, thinning) == Done(r.value.0);
        assert Steps(k, p, size * thinning) == Done(r.value.0);
        forall i | 0 <= i < |r.value.1|
          ensures Steps(k, p, (i + 1) * thinning).Done?
          ensures r.value.1[i] == Steps(k, p, (i + 1) * thinning).value.model
        {
          if i == size - 1 {
            assert (i + 1) * thinning == size * thinning;
          } else {
            assert r.value.1[i] == prev.1[i];
            assert prev.1[i] == Steps(k, p, (i + 1) * thinning).value.model;
          }
        }
        assert ThinnedRun(k, p, r.value.1, thinning);
      }
    }
  }

  /** `sample` with size 0 returns no models and takes no step: the state is unchanged. */
  lemma EmptySample<S(!new), R(!new), M(!new)>(k: Kernel<S, R, M>, p: Position<S, R, M>, thinning: nat)
    ensures Sampled(k, p, 0, thinning) == Done((p, []))
  {
  }

  /** A stepper object: the operations, and the state its methods update. */
  class Stepper<S(!new), R(!new), M(!new)> {
    const kernel: Kernel<S, R, M>
    var state: S

    constructor (kernel: Kernel<S, R, M>, state: S)
      ensures this.kernel == kernel && this.state == state
    {
      this.kernel := kernel;
      this.state := state;
    }

    method Step(rng: R, model: M) returns (r: Fallible<(R, M)>)
      modifies this
      ensures match kernel.step(old(state), rng, model)
        case Done(q) => r == Done((q.rng, q.model)) && state == q.state
        case Abort(c) => r == Abort(c)
    {
      match kernel.step(state, rng, model)
      case Done(q) =>
        state := q.state;
        return Done((q.rng, q.model));
      case Abort(c) =>
        return Abort(c);
    }

    method StepWithLogLikelihood(rng: R, model: M, ll: Option<Float>) returns (r: Fallible<(R, M, Float)>)
      modifies this
      ensures match kernel.stepWithLogLikelihood(old(state), rng, model, ll)
        case Done(q) => r == Done((q.rng, q.model, q.ll)) && state == q.state
        case Abort(c) => r == Abort(c)
    {
      match kernel.stepWithLogLikelihood(state, rng, model, ll)
      case Done(q) =>
        state := q.state;
        return Done((q.rng, q.model, q.ll));
      case Abort(c) =>
        return Abort(c);
    }

    /** `multiple_steps`: the fold of `steps` calls of `step`. */
    method MultipleSteps(rng: R, model: M, steps: nat) returns (r: Fallible<(R, M)>)
      modifies this
      ensures match Steps(kernel, Position(old(state), rng, model), steps)
        case Done(q) => r == Done((q.rng, q.model)) && state == q.state
        case Abort(c) => r == Abort(c)
    {
      ghost var p := Position(state, rng, model);
      var g := rng;
      var cur := model;
      var i := 0;
      while i < steps
        invariant 0 <= i <= steps
        invariant Steps(kernel, p, i) == Done(Position(state, g, cur))
      {
        var stepped := Step(g, cur);
        if stepped.Abort? {
          StepsAbortPersists(kernel, p, i + 1, steps);
          return Abort(stepped.cause);
        }
        g, cur := stepped.value.0, stepped.value.1;
        i := i + 1;
      }
      return Done((g, cur));
    }

    /** `sample`: `size` rounds of `multiple_steps`, each starting where the last ended. */
    method Sample(rng: R, model: M, size: nat, thinning: nat) returns (r: Fallible<(R, seq<M>)>)
      modifies this
      ensures match Sampled(kernel, Position(old(state), rng, model), size, thinning)
        case Done((q, ms)) => r == Done((q.rng, ms)) && state == q.state
        case Abort(c) => r == Abort(c)
    {
      ghost var p := Position(state, rng, model);
      var g := rng;
      var m := model;
      var kept: seq<M> := [];
      var i := 0;
      while i < size
        invariant 0 <= i <= size
        invariant Sampled(kernel, p, i, thinning) == Done((Position(state, g, m), kept))
      {
        var next := MultipleSteps(g, m, thinning);
        if next.Abort? {
          SampledAbortPersists(kernel, p, i + 1, size, thinning);
          return Abort(next.cause);
        }
        g, m := next.value.0, next.value.1;
        kept := kept + [m];
        i := i + 1;
      }
      return Done((g, kept));
    }

    function DrawPrior(rng: R, m: M): (R, M)
      reads this
    {
      kernel.drawPrior(state, rng, m)
    }

    method AdaptEnable()
      modifies this
      ensures state == kernel.adaptEnable(old(state))
    {
      state := kernel.adaptEnable(state);
    }

    method AdaptDisable()
      modifies this
      ensures state == kernel.adaptDisable(old(state))
    {
      state := kernel.adaptDisable(state);
    }

    function AdaptState(): AdaptState
      reads this
    {
      kernel.adaptState(state)
    }
  }
}
