/**
 * `BinaryGibbsMetropolis`: a Gibbs sweep over a vector of booleans. Each
 * step visits the indices in a freshly shuffled order; at each index a coin
 * below `transit_p` proposes flipping that bit, and the older
 * `util::metropolis_select` decides on the flip from the change in
 * log-likelihood. The shuffled order, the coins and ln(u) of every visit are
 * inputs: `coin(k)` and `lnU(k)` belong to the `k`-th visit of the sweep.
 */
module BinaryGibbs {
  import opened Floats
  import opened Outcomes
  import opened Lenses
  import opened Parameters
  import opened AdaptationModes
  import SU = StepperUtil

  /** The indices `0, 1, …, n - 1` in order, as `(0..n).collect()` builds them. */
  function Range(n: nat): (r: seq<nat>)
    ensures |r| == n && forall i :: 0 <= i < n ==> r[i] == i
  {
    seq(n, i => i)
  }

  /** `order` holds every index below its length exactly once. */
  predicate IsPermutationOfRange(order: seq<nat>) {
    multiset(order) == multiset(Range(|order|))
  }

  /** Every entry of such an order is a valid index. */
  lemma PermutationBounded(order: seq<nat>, k: nat)
    requires IsPermutationOfRange(order) && k < |order|
    ensures order[k] < |order|
  {
    assert order[k] in multiset(order);
    assert order[k] in multiset(Range(|order|));
    assert order[k] in Range(|order|);
  }

  /** A shuffle keeps the order a permutation of the same indices. */
  lemma ShufflePreservesPermutation(order: seq<nat>, shuffled: seq<nat>)
    requires IsPermutationOfRange(order) && multiset(shuffled) == multiset(order)
    ensures IsPermutationOfRange(shuffled) && |shuffled| == |order|
  {
    assert |multiset(shuffled)| == |shuffled| && |multiset(order)| == |order|;
  }

  /** What the sweep threads from visit to visit. */
  datatype SweepState<M> = SweepState(bits: seq<bool>, model: M, logP: Float)

  /**
   * One visit of index `idx`: nothing happens unless the coin is below
   * `transitP`. Otherwise the flipped vector is written into the working
   * model, the log-likelihood is evaluated there, and the flip is kept, with
   * its log-likelihood, only when accepted. The working model keeps the
   * flipped vector either way; only the bits are restored.
   */
  function Visit<M(!new)>(p: Parameter<seq<bool>, M>, like: M -> Float, transitP: real,
                         idx: nat, coin: real, lnU: Float, st: SweepState<M>): (r: Fallible<SweepState<M>>)
    ensures !(coin < transitP) ==> r == Done(st)
    ensures coin < transitP && idx >= |st.bits| ==> r == Abort(IndexOutOfBounds)
    ensures coin < transitP && idx < |st.bits| ==>
      var flipped := st.bits[idx := !st.bits[idx]];
      var m := p.lens.Set(st.model, flipped);
      var accepted := Less(lnU, Sub(like(m), st.logP));
      r.Done? && r.value.model == m &&
      (accepted ==> r.value.bits == flipped && r.value.logP == like(m)) &&
      (!accepted ==> r.value.bits == st.bits && r.value.logP == st.logP)
  {
    if !(coin < transitP) then Done(st)
    else if idx >= |st.bits| then Abort(IndexOutOfBounds)
    else
      var flipped := st.bits[idx := !st.bits[idx]];
      var m := p.lens.Set(st.model, flipped);
      var candidate := like(m);
      match SU.MetropolisSelect(lnU, Sub(candidate, st.logP), flipped[idx], !flipped[idx])
      case Accepted(q, _) => Done(SweepState(flipped[idx := q], m, candidate))
      case Rejected(q, _) =>
        assert flipped[idx := q] == st.bits;
        Done(SweepState(flipped[idx := q], m, st.logP))
  }

  /** The first `n` visits of the sweep over `order` from `st`. */
  function Sweep<M(!new)>(p: Parameter<seq<bool>, M>, like: M -> Float, transitP: real, order: seq<nat>,
                         coin: nat -> real, lnU: nat -> Float, n: nat, st: SweepState<M>): Fallible<SweepState<M>>
    requires n <= |order|
  {
    if n == 0 then Done(st)
    else match Sweep(p, like, transitP, order, coin, lnU, n - 1, st)
      case Abort(c) => Abort(c)
      case Done(s) => Visit(p, like, transitP, order[n - 1], coin(n - 1), lnU(n - 1), s)
  }

  /** Once a sweep has panicked, the later visits keep the panic. */
  lemma {:induction false} AbortPersists<M(!new)>(p: Parameter<seq<bool>, M>, like: M -> Float, transitP: real,
                                                 order: seq<nat>, coin: nat -> real, lnU: nat -> Float,
                                                 j: nat, n: nat, st: SweepState<M>)
    requires j <= n <= |order|
    requires Sweep(p, like, transitP, order, coin, lnU, j, st).Abort?
    ensures Sweep(p, like, transitP, order, coin, lnU, n, st) == Sweep(p, like, transitP, order, coin, lnU, j, st)
    decreases n - j
  {
    if j < n {
      AbortPersists(p, like, transitP, order, coin, lnU, j, n - 1, st);
    }
  }

  /**
   * A sweep never changes the vector's length, and changes no bit at an
   * index it has not visited.
   */
  lemma {:induction false} SweepFrame<M(!new)>(p: Parameter<seq<bool>, M>, like: M -> Float, transitP: real,
                                              order: seq<nat>, coin: nat -> real, lnU: nat -> Float,
                                              n: nat, st: SweepState<M>)
    requires n <= |order|
    requires Sweep(p, like, transitP, order, coin, lnU, n, st).Done?
    ensures var r := Sweep(p, like, transitP, order, coin, lnU, n, st).value;
      |r.bits| == |st.bits| &&
      forall j :: 0 <= j < |st.bits| && j !in order[..n] ==> r.bits[j] == st.bits[j]
  {
    if n > 0 {
      SweepFrame(p, like, transitP, order, coin, lnU, n - 1, st);
      assert order[..n] == order[..n - 1] + [order[n - 1]];
    }
  }

  /**
   * Over a permutation of the vector's indices, no visit is out of bounds,
   * so the sweep never panics.
   */
  lemma {:induction false} PermutationSweepSucceeds<M(!new)>(p: Parameter<seq<bool>, M>, like: M -> Float,
                                                           transitP: real, order: seq<nat>,
                                                           coin: nat -> real, lnU: nat -> Float,
                                                           n: nat, st: SweepState<M>)
    requires n <= |order|
    requires IsPermutationOfRange(order) && |order| == |st.bits|
    ensures Sweep(p, like, transitP, order, coin, lnU, n, st).Done?
  {
    if n > 0 {
      PermutationSweepSucceeds(p, like, transitP, order, coin, lnU, n - 1, st);
      SweepFrame(p, like, transitP, order, coin, lnU, n - 1, st);
      PermutationBounded(order, n - 1);
    }
  }

  /** When no coin falls below `transitP`, the sweep changes nothing. */
  lemma {:induction false} NoTransitionNoChange<M(!new)>(p: Parameter<seq<bool>, M>, like: M -> Float,
                                                       transitP: real, order: seq<nat>,
                                                       coin: nat -> real, lnU: nat -> Float,
                                                       n: nat, st: SweepState<M>)
    requires n <= |order|
    requires forall k :: 0 <= k < n ==> transitP <= coin(k)
    ensures Sweep(p, like, transitP, order, coin, lnU, n, st) == Done(st)
  {
    if n > 0 {
      NoTransitionNoChange(p, like, transitP, order, coin, lnU, n - 1, st);
    }
  }

  /** Where a step starts: the cached score, or the model's log-likelihood, and the model's vector. */
  function Start<M(!new)>(p: Parameter<seq<bool>, M>, like: M -> Float, cached: Option<Float>, model: M): (st: SweepState<M>)
    ensures st.bits == p.lens.Get(model) && st.model == model
    ensures st.logP == (if cached.Some? then cached.value else like(model))
  {
    SweepState(p.lens.Get(model), model, if cached.Some? then cached.value else like(model))
  }

  class BinaryGibbsMetropolis<M(!new)> {
    const parameter: Parameter<seq<bool>, M>
    const logLikelihood: M -> Float
    var currentScore: Option<Float>
    var order: seq<nat>
    const transitP: real

    constructor Init(parameter: Parameter<seq<bool>, M>, logLikelihood: M -> Float, order: seq<nat>, transitP: real)
      ensures this.parameter == parameter && this.logLikelihood == logLikelihood
      ensures this.order == order && this.transitP == transitP && currentScore == None
    {
      this.parameter := parameter;
      this.logLikelihood := logLikelihood;
      this.order := order;
      this.transitP := transitP;
      currentScore := None;
    }

    /** `new`: always `Some`, with the identity order over the initial model's vector and no cached score. */
    static method New(parameter: Parameter<seq<bool>, M>, logLikelihood: M -> Float, initModel: M, transitP: real)
      returns (r: Option<BinaryGibbsMetropolis<M>>)
      ensures r.Some? && fresh(r.value)
      ensures r.value.parameter == parameter && r.value.logLikelihood == logLikelihood && r.value.transitP == transitP
      ensures r.value.order == Range(|parameter.lens.Get(initModel)|) && r.value.currentScore == None
      ensures IsPermutationOfRange(r.value.order)
    {
      var size := |parameter.lens.Get(initModel)|;
      var s := new BinaryGibbsMetropolis.Init(parameter, logLikelihood, Range(size), transitP);
      return Some(s);
    }

    /**
     * `step`, with `shuffled` the order after the in-place shuffle: the
     * sweep over it, the final vector put into the working model, and the
     * final log-likelihood cached.
     */
    method Step(model: M, shuffled: seq<nat>, coin: nat -> real, lnU: nat -> Float) returns (r: Fallible<M>)
      requires multiset(shuffled) == multiset(order)
      modifies this
      ensures order == shuffled
      ensures match Sweep(parameter, logLikelihood, transitP, shuffled, coin, lnU, |shuffled|,
                          Start(parameter, logLikelihood, old(currentScore), model))
        case Done(st) => r == Done(parameter.lens.Set(st.model, st.bits)) && currentScore == Some(st.logP)
        case Abort(c) => r == Abort(c)
    {
      order := shuffled;
      ghost var st0 := Start(parameter, logLikelihood, currentScore, model);
      var logP := if currentScore.Some? then currentScore.value else logLikelihood(model);
      var m := new Cell(model);
      var bits := parameter.lens.Get(m.value);
      var k := 0;
      while k < |order|
        invariant 0 <= k <= |order| && order == shuffled
        invariant Sweep(parameter, logLikelihood, transitP, order, coin, lnU, k, st0) == Done(SweepState(bits, m.value, logP))
      {
        var idx := order[k];
        if coin(k) < transitP {
          if idx >= |bits| {
            AbortPersists(parameter, logLikelihood, transitP, order, coin, lnU, k + 1, |order|, st0);
            return Abort(IndexOutOfBounds);
          }
          bits := bits[idx := !bits[idx]];
          SetInPlace(parameter.lens, m, bits);
          var candidate := logLikelihood(m.value);
          match SU.MetropolisSelect(lnU(k), Sub(candidate, logP), bits[idx], !bits[idx])
          case Accepted(q, _) =>
            bits := bits[idx := q];
            logP := candidate;
          case Rejected(q, _) =>
            bits := bits[idx := q];
        }
        k := k + 1;
      }
      currentScore := Some(logP);
      SetInPlace(parameter.lens, m, bits);
      return Done(m.value);
    }

    /** Binary Gibbs does not adapt: `set_adapt` and `reset` do nothing and `get_adapt` reports disabled. */
    function GetAdapt(): AdaptationStatus {
      AdaptationStatus.Disabled
    }
  }

  /**
   * Started from `new` on a model whose vector keeps its length, every step
   * succeeds: the order stays a permutation of the indices, and the result
   * has a vector of the same length that differs from the input's only at
   * visited indices.
   */
  lemma StepSucceeds<M(!new)>(p: Parameter<seq<bool>, M>, like: M -> Float, transitP: real, order: seq<nat>,
                             shuffled: seq<nat>, coin: nat -> real, lnU: nat -> Float, cached: Option<Float>, model: M)
    requires IsPermutationOfRange(order) && |order| == |p.lens.Get(model)|
    requires multiset(shuffled) == multiset(order)
    ensures IsPermutationOfRange(shuffled)
    ensures var r := Sweep(p, like, transitP, shuffled, coin, lnU, |shuffled|, Start(p, like, cached, model));
      r.Done? && |r.value.bits| == |p.lens.Get(model)|
  {
    ShufflePreservesPermutation(order, shuffled);
    var st0 := Start(p, like, cached, model);
    PermutationSweepSucceeds(p, like, transitP, shuffled, coin, lnU, |shuffled|, st0);
    SweepFrame(p, like, transitP, shuffled, coin, lnU, |shuffled|, st0);
  }

  /**
   * Through a lens whose second set overrides the first, the working model
   * only ever differs from the input by its vector, so the step's result is
   * the input model with the final vector put in.
   */
  lemma {:induction false} SweepOnlySetsVector<M(!new)>(p: Parameter<seq<bool>, M>, like: M -> Float, transitP: real,
                                                       order: seq<nat>, coin: nat -> real, lnU: nat -> Float,
                                                       n: nat, st: SweepState<M>, bits: seq<bool>)
    requires SetSet(p.lens)
    requires n <= |order|
    requires Sweep(p, like, transitP, order, coin, lnU, n, st).Done?
    ensures p.lens.Set(Sweep(p, like, transitP, order, coin, lnU, n, st).value.model, bits) == p.lens.Set(st.model, bits)
  {
    if n > 0 {
      var prev := Sweep(p, like, transitP, order, coin, lnU, n - 1, st).value;
      var idx := order[n - 1];
      if coin(n - 1) < transitP {
        var flipped := prev.bits[idx := !prev.bits[idx]];
        assert p.lens.Set(p.lens.Set(prev.model, flipped), bits) == p.lens.Set(prev.model, bits);
      }
      SweepOnlySetsVector(p, like, transitP, order, coin, lnU, n - 1, st, bits);
    }
  }

  /** With a lawful lens, the step returns the input model holding the final vector. */
  lemma StepResultHoldsFinalVector<M(!new)>(p: Parameter<seq<bool>, M>, like: M -> Float, transitP: real,
                                           order: seq<nat>, coin: nat -> real, lnU: nat -> Float,
                                           cached: Option<Float>, model: M)
    requires Lawful(p.lens)
    requires Sweep(p, like, transitP, order, coin, lnU, |order|, Start(p, like, cached, model)).Done?
    ensures var st := Sweep(p, like, transitP, order, coin, lnU, |order|, Start(p, like, cached, model)).value;
      p.lens.Set(st.model, st.bits) == p.lens.Set(model, st.bits) &&
      p.lens.Get(p.lens.Set(st.model, st.bits)) == st.bits
  {
    var st := Sweep(p, like, transitP, order, coin, lnU, |order|, Start(p, like, cached, model)).value;
    SweepOnlySetsVector(p, like, transitP, order, coin, lnU, |order|, Start(p, like, cached, model), st.bits);
  }
}
