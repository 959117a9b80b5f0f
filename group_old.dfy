/**
 * The older, value-returning group of `steppers/group.rs`: `step` returns a
 * new group and threads one mutable model through every sub-stepper.
 */
module GroupOld {
  import opened Outcomes
  import opened Lenses

  /** The older `SteppingAlg`: each call returns a new stepper. */
  datatype OldAlg<!A(!new), !R(!new), !M(!new)> = OldAlg(
    step: (A, R, M) -> Fallible<(A, R, M)>,
    adaptOn: A -> A,
    adaptOff: A -> A)

  datatype OldGroup<A> = OldGroup(steppers: seq<A>)

  /** The first `n` sub-steppers stepped in order on the shared model. */
  function StepAll<A(!new), R(!new), M(!new)>(alg: OldAlg<A, R, M>, steppers: seq<A>, rng: R, model: M, n: nat)
    : Fallible<(seq<A>, R, M)>
    requires n <= |steppers|
  {
    if n == 0 then Done(([], rng, model))
    else match StepAll(alg, steppers, rng, model, n - 1)
      case Abort(c) => Abort(c)
      case Done((done, g, m)) =>
        match alg.step(steppers[n - 1], g, m)
        case Abort(c) => Abort(c)
        case Done((a, g2, m2)) => Done((done + [a], g2, m2))
  }

  lemma {:induction false} StepAllAbortPersists<A(!new), R(!new), M(!new)>(alg: OldAlg<A, R, M>, steppers: seq<A>, rng: R,
                                                                           model: M, j: nat, n: nat)
    requires j <= n <= |steppers| && StepAll(alg, steppers, rng, model, j).Abort?
    ensures StepAll(alg, steppers, rng, model, n) == StepAll(alg, steppers, rng, model, j)
    decreases n - j
  {
    if j < n {
      StepAllAbortPersists(alg, steppers, rng, model, j, n - 1);
    }
  }

  /**
   * The new group has one stepper per old one, the `j`-th being the `j`-th
   * old stepper's step from the generator and model the first `j` left.
   */
  lemma {:induction false} StepAllShape<A(!new), R(!new), M(!new)>(alg: OldAlg<A, R, M>, steppers: seq<A>, rng: R, model: M,
                                                                   n: nat)
    requires n <= |steppers| && StepAll(alg, steppers, rng, model, n).Done?
    ensures |StepAll(alg, steppers, rng, model, n).value.0| == n
    ensures forall j :: 0 <= j < n ==>
      StepAll(alg, steppers, rng, model, j).Done? &&
      var (_, g, m) := StepAll(alg, steppers, rng, model, j).value;
      alg.step(steppers[j], g, m).Done? &&
      StepAll(alg, steppers, rng, model, n).value.0[j] == alg.step(steppers[j], g, m).value.0
  {
    if n > 0 {
      StepAllShape(alg, steppers, rng, model, n - 1);
      var prev := StepAll(alg, steppers, rng, model, n - 1).value;
      var cur := StepAll(alg, steppers, rng, model, n).value;
      assert cur.0 == prev.0 + [cur.0[n - 1]];
      forall j | 0 <= j < n - 1
        ensures cur.0[j] == prev.0[j]
      {
      }
    }
  }

  /** `step`: the model is updated through `model`, and a new group is returned. */
  method Step<A(!new), R(!new), M(!new)>(alg: OldAlg<A, R, M>, group: OldGroup<A>, rng: R, model: Cell<M>)
    returns (r: Fallible<(OldGroup<A>, R)>)
    modifies model
    ensures match StepAll(alg, group.steppers, rng, old(model.value), |group.steppers|)
      case Done((ss, g, m)) => r == Done((OldGroup(ss), g)) && model.value == m
      case Abort(c) => r == Abort(c)
  {
    ghost var m0 := model.value;
    var newSteppers: seq<A> := [];
    var g := rng;
    var i := 0;
    while i < |group.steppers|
      invariant 0 <= i <= |group.steppers|
      invariant StepAll(alg, group.steppers, rng, m0, i) == Done((newSteppers, g, model.value))
    {
      match alg.step(group.steppers[i], g, model.value)
      case Abort(c) =>
        StepAllAbortPersists(alg, group.steppers, rng, m0, i + 1, |group.steppers|);
        return Abort(c);
      case Done((a, g2, m2)) =>
        newSteppers := newSteppers + [a];
        g := g2;
        model.value := m2;
      i := i + 1;
    }
    return Done((OldGroup(newSteppers), g));
  }

  function AdaptOn<A(!new), R(!new), M(!new)>(alg: OldAlg<A, R, M>, group: OldGroup<A>): (r: OldGroup<A>)
    ensures |r.steppers| == |group.steppers|
    ensures forall i :: 0 <= i < |r.steppers| ==> r.steppers[i] == alg.adaptOn(group.steppers[i])
  {
    OldGroup(seq(|group.steppers|, i requires 0 <= i < |group.steppers| => alg.adaptOn(group.steppers[i])))
  }

  function AdaptOff<A(!new), R(!new), M(!new)>(alg: OldAlg<A, R, M>, group: OldGroup<A>): (r: OldGroup<A>)
    ensures |r.steppers| == |group.steppers|
    ensures forall i :: 0 <= i < |r.steppers| ==> r.steppers[i] == alg.adaptOff(group.steppers[i])
  {
    OldGroup(seq(|group.steppers|, i requires 0 <= i < |group.steppers| => alg.adaptOff(group.steppers[i])))
  }

  /** Switching a group on and then off is switching it off, when it is so for every member. */
  lemma OffAfterOn<A(!new), R(!new), M(!new)>(alg: OldAlg<A, R, M>, group: OldGroup<A>)
    requires forall a :: alg.adaptOff(alg.adaptOn(a)) == alg.adaptOff(a)
    ensures AdaptOff(alg, AdaptOn(alg, group)) == AdaptOff(alg, group)
  {
    var lhs := AdaptOff(alg, AdaptOn(alg, group));
    var rhs := AdaptOff(alg, group);
    assert lhs.steppers == rhs.steppers;
  }
}
