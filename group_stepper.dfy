/**
 * The group stepper of `steppers/group/stepper.rs`: a sequence of sub-steppers
 * applied one after the other to the same model, each handing the next the
 * log-likelihood it computed, and the likelihood of the last one cached.
 */
module GroupSteppers {
  import opened Floats
  import opened Outcomes
  import opened AdaptStates
  import opened SteppingAlgs

  /** The fields of a group: its members in order and the cached log-likelihood. */
  datatype GroupState<!S(!new), !R(!new), !M(!new)> =
    GroupState(members: seq<Member<S, R, M>>, currentLogLikelihood: Option<Float>)

  /** After visiting `|states|` members: their new states, the generator, the model and the likelihood. */
  datatype Swept<S, R, M> = Swept(states: seq<S>, rng: R, model: M, ll: Option<Float>)

  /** The fold of `step_with_log_likelihood` over the first `n` members. */
  function Sweep<S(!new), R(!new), M(!new)>(members: seq<Member<S, R, M>>, rng: R, model: M, ll: Option<Float>, n: nat)
    : Fallible<Swept<S, R, M>>
    requires n <= |members|
  {
    if n == 0 then Done(Swept([], rng, model, ll))
    else match Sweep(members, rng, model, ll, n - 1)
      case Abort(c) => Abort(c)
      case Done(w) =>
        match members[n - 1].kernel.stepWithLogLikelihood(members[n - 1].state, w.rng, w.model, w.ll)
        case Abort(c) => Abort(c)
        case Done(mv) => Done(Swept(w.states + [mv.state], mv.rng, mv.model, Some(mv.ll)))
  }

  lemma {:induction false} SweepAbortPersists<S(!new), R(!new), M(!new)>(members: seq<Member<S, R, M>>, rng: R, model: M,
                                                                        ll: Option<Float>, j: nat, n: nat)
    requires j <= n <= |members| && Sweep(members, rng, model, ll, j).Abort?
    ensures Sweep(members, rng, model, ll, n) == Sweep(members, rng, model, ll, j)
    decreases n - j
  {
    if j < n {
      SweepAbortPersists(members, rng, model, ll, j, n - 1);
    }
  }

  /**
   * A finished sweep has one new state per visited member, and once a member
   * has been visited the likelihood handed on is always present.
   */
  lemma {:induction false} SweepShape<S(!new), R(!new), M(!new)>(members: seq<Member<S, R, M>>, rng: R, model: M,
                                                                 ll: Option<Float>, n: nat)
    requires n <= |members| && Sweep(members, rng, model, ll, n).Done?
    ensures |Sweep(members, rng, model, ll, n).value.states| == n
    ensures n == 0 ==> Sweep(members, rng, model, ll, n).value == Swept([], rng, model, ll)
    ensures n > 0 ==> Sweep(members, rng, model, ll, n).value.ll.Some?
  {
    if n > 0 {
      SweepShape(members, rng, model, ll, n - 1);
    }
  }

  /**
   * Every member is stepped exactly once and in order: the `j`-th new state is
   * the `j`-th member's step from where the first `j` members left the
   * generator and the model, with the likelihood they handed on.
   */
  lemma {:induction false} SweepStepsEachMember<S(!new), R(!new), M(!new)>(members: seq<Member<S, R, M>>, rng: R, model: M,
                                                                          ll: Option<Float>, n: nat, j: nat)
    requires j < n <= |members| && Sweep(members, rng, model, ll, n).Done?
    ensures Sweep(members, rng, model, ll, j).Done?
    ensures var w := Sweep(members, rng, model, ll, j).value;
      var mv := members[j].kernel.stepWithLogLikelihood(members[j].state, w.rng, w.model, w.ll);
      mv.Done? && |Sweep(members, rng, model, ll, n).value.states| == n &&
      Sweep(members, rng, model, ll, n).value.states[j] == mv.value.state &&
      (j > 0 ==> w.ll.Some?)
    decreases n - j
  {
    if Sweep(members, rng, model, ll, j).Abort? {
      SweepAbortPersists(members, rng, model, ll, j, n);
    }
    SweepShape(members, rng, model, ll, j);
    if j + 1 < n {
      SweepStepsEachMember(members, rng, model, ll, n, j + 1);
      var w1 := Sweep(members, rng, model, ll, j + 1).value;
      var wn := Sweep(members, rng, model, ll, n).value;
      SweepPrefix(members, rng, model, ll, j + 1, n);
      assert wn.states[j] == wn.states[..j + 1][j] == w1.states[j];
    }
  }

  /** The states after `j` members are a prefix of the states after `n`. */
  lemma {:induction false} SweepPrefix<S(!new), R(!new), M(!new)>(members: seq<Member<S, R, M>>, rng: R, model: M,
                                                                  ll: Option<Float>, j: nat, n: nat)
    requires j <= n <= |members| && Sweep(members, rng, model, ll, n).Done?
    ensures Sweep(members, rng, model, ll, j).Done?
    ensures |Sweep(members, rng, model, ll, j).value.states| == j <= |Sweep(members, rng, model, ll, n).value.states|
    ensures Sweep(members, rng, model, ll, j).value.states == Sweep(members, rng, model, ll, n).value.states[..j]
    decreases n - j
  {
    if Sweep(members, rng, model, ll, j).Abort? {
      SweepAbortPersists(members, rng, model, ll, j, n);
    }
    SweepShape(members, rng, model, ll, j);
    SweepShape(members, rng, model, ll, n);
    if j < n {
      SweepPrefix(members, rng, model, ll, j + 1, n);
      var s1 := Sweep(members, rng, model, ll, j + 1).value.states;
      assert Sweep(members, rng, model, ll, j).value.states == s1[..j];
      assert s1 == Sweep(members, rng, model, ll, n).value.states[..j + 1];
    }
  }

  /** The members with their states replaced by `states`, where there is one. */
  function Updated<S(!new), R(!new), M(!new)>(members: seq<Member<S, R, M>>, states: seq<S>): (r: seq<Member<S, R, M>>)
    ensures |r| == |members|
    ensures forall i :: 0 <= i < |r| ==> r[i].kernel == members[i].kernel
    ensures |states| == |members| ==> forall i :: 0 <= i < |r| ==> r[i].state == states[i]
  {
    seq(|members|, i requires 0 <= i < |members| =>
      Member(members[i].kernel, if i < |states| then states[i] else members[i].state))
  }

  /**
   * `step_with_log_likelihood` of the group: sweep all members, cache the last
   * likelihood, and unwrap it — which panics only when the group is empty and
   * no likelihood was supplied.
   */
  function GroupStepWithLogLikelihood<S(!new), R(!new), M(!new)>(g: GroupState<S, R, M>, rng: R, model: M, ll: Option<Float>)
    : (r: Fallible<Moved<GroupState<S, R, M>, R, M>>)
    ensures r.Done? ==> r.value.state.currentLogLikelihood == Some(r.value.ll) &&
                        |r.value.state.members| == |g.members|
    ensures |g.members| == 0 ==> (r.Abort? <==> ll.None?)
  {
    match Sweep(g.members, rng, model, ll, |g.members|)
    case Abort(c) => Abort(c)
    case Done(w) =>
      if w.ll.None? then Abort(UnwrapNone)
      else Done(Moved(GroupState(Updated(g.members, w.states), w.ll), w.rng, w.model, w.ll.value))
  }

  /** `step`: a step with the cached likelihood. */
  function GroupStep<S(!new), R(!new), M(!new)>(g: GroupState<S, R, M>, rng: R, model: M): (r: Fallible<Position<GroupState<S, R, M>, R, M>>)
    ensures r.Done? ==> r.value.state.currentLogLikelihood.Some? && |r.value.state.members| == |g.members|
    ensures |g.members| == 0 ==> (r.Abort? <==> g.currentLogLikelihood.None?)
  {
    match GroupStepWithLogLikelihood(g, rng, model, g.currentLogLikelihood)
    case Abort(c) => Abort(c)
    case Done(mv) => Done(Position(mv.state, mv.rng, mv.model))
  }

  /** The fold of `draw_prior` over the first `n` members. */
  function DrawPriorFold<S(!new), R(!new), M(!new)>(members: seq<Member<S, R, M>>, rng: R, m: M, n: nat): (r: (R, M))
    requires n <= |members|
    ensures n == 0 ==> r == (rng, m)
    ensures n == 1 ==> r == members[0].kernel.drawPrior(members[0].state, rng, m)
  {
    if n == 0 then (rng, m)
    else
      var (r1, m1) := DrawPriorFold(members, rng, m, n - 1);
      members[n - 1].kernel.drawPrior(members[n - 1].state, r1, m1)
  }

  /** `draw_prior` of the group: each member's `draw_prior`, in list order. */
  function GroupDrawPrior<S(!new), R(!new), M(!new)>(g: GroupState<S, R, M>, rng: R, m: M): (r: (R, M))
    ensures |g.members| == 0 ==> r == (rng, m)
    ensures |g.members| == 1 ==> r == g.members[0].kernel.drawPrior(g.members[0].state, rng, m)
  {
    DrawPriorFold(g.members, rng, m, |g.members|)
  }

  /** The fold over the first `n` members depends on those members only. */
  lemma {:induction false} DrawPriorFoldPrefix<S(!new), R(!new), M(!new)>(members: seq<Member<S, R, M>>, more: seq<Member<S, R, M>>,
                                                                         rng: R, m: M, n: nat)
    requires n <= |members|
    ensures DrawPriorFold(members + more, rng, m, n) == DrawPriorFold(members, rng, m, n)
  {
    if n > 0 {
      DrawPriorFoldPrefix(members, more, rng, m, n - 1);
      assert (members + more)[n - 1] == members[n - 1];
    }
  }

  /**
   * Folding over `a + b` is folding over `a` and then, from where `a` left
   * the generator and the model, over the first `k` members of `b`.
   */
  lemma {:induction false} DrawPriorFoldSplit<S(!new), R(!new), M(!new)>(a: seq<Member<S, R, M>>, b: seq<Member<S, R, M>>,
                                                                        rng: R, m: M, k: nat)
    requires k <= |b|
    ensures var p := DrawPriorFold(a, rng, m, |a|);
      DrawPriorFold(a + b, rng, m, |a| + k) == DrawPriorFold(b, p.0, p.1, k)
  {
    if k == 0 {
      DrawPriorFoldPrefix(a, b, rng, m, |a|);
    } else {
      DrawPriorFoldSplit(a, b, rng, m, k - 1);
      assert (a + b)[|a| + k - 1] == b[k - 1];
    }
  }

  /** The group draws from the prior in list order: the members of `a`, then those of `b`. */
  lemma GroupDrawPriorInOrder<S(!new), R(!new), M(!new)>(a: seq<Member<S, R, M>>, b: seq<Member<S, R, M>>,
                                                        cached: Option<Float>, rng: R, m: M)
    ensures var p := GroupDrawPrior(GroupState(a, cached), rng, m);
      GroupDrawPrior(GroupState(a + b, cached), rng, m) == GroupDrawPrior(GroupState(b, cached), p.0, p.1)
  {
    DrawPriorFoldSplit(a, b, rng, m, |b|);
  }

  /** `adapt_enable`: every member enabled, nothing else changed. */
  function GroupAdaptEnable<S(!new), R(!new), M(!new)>(g: GroupState<S, R, M>): (r: GroupState<S, R, M>)
    ensures |r.members| == |g.members| && r.currentLogLikelihood == g.currentLogLikelihood
    ensures forall i :: 0 <= i < |r.members| ==>
      r.members[i].kernel == g.members[i].kernel &&
      r.members[i].state == g.members[i].kernel.adaptEnable(g.members[i].state)
  {
    g.(members := seq(|g.members|, i requires 0 <= i < |g.members| =>
      Member(g.members[i].kernel, g.members[i].kernel.adaptEnable(g.members[i].state))))
  }

  /** `adapt_disable`: every member disabled, nothing else changed. */
  function GroupAdaptDisable<S(!new), R(!new), M(!new)>(g: GroupState<S, R, M>): (r: GroupState<S, R, M>)
    ensures |r.members| == |g.members| && r.currentLogLikelihood == g.currentLogLikelihood
    ensures forall i :: 0 <= i < |r.members| ==>
      r.members[i].kernel == g.members[i].kernel &&
      r.members[i].state == g.members[i].kernel.adaptDisable(g.members[i].state)
  {
    g.(members := seq(|g.members|, i requires 0 <= i < |g.members| =>
      Member(g.members[i].kernel, g.members[i].kernel.adaptDisable(g.members[i].state))))
  }

  /** What each member reports. */
  function MemberStates<S(!new), R(!new), M(!new)>(members: seq<Member<S, R, M>>): (r: seq<AdaptState>)
    ensures |r| == |members|
    ensures forall i :: 0 <= i < |r| ==> r[i] == members[i].kernel.adaptState(members[i].state)
  {
    seq(|members|, i requires 0 <= i < |members| => members[i].kernel.adaptState(members[i].state))
  }

  /**
   * `adapt_state`: an empty group is not adaptive, a group whose members all
   * report the same state reports it, and members on and off make it mixed.
   */
  function GroupAdaptState<S(!new), R(!new), M(!new)>(g: GroupState<S, R, M>): (r: AdaptState)
    ensures |g.members| == 0 ==> r == NotApplicable
    ensures |g.members| > 0 && (forall i :: 0 <= i < |g.members| ==> g.members[i].kernel.adaptState(g.members[i].state) == On)
      ==> r == On
    ensures |g.members| > 0 && (forall i :: 0 <= i < |g.members| ==> g.members[i].kernel.adaptState(g.members[i].state) == Off)
      ==> r == Off
    ensures (exists i :: 0 <= i < |g.members| && g.members[i].kernel.adaptState(g.members[i].state) == On) &&
            (exists j :: 0 <= j < |g.members| && g.members[j].kernel.adaptState(g.members[j].state) == Off)
      ==> r == Mixed
  {
    var states := MemberStates(g.members);
    assert |g.members| > 0 ==> states[0] in states;
    MergeAll(states)
  }

  /** The group as a stepper of its own, so that it can be driven like any other. */
  function GroupKernel<S(!new), R(!new), M(!new)>(): (k: Kernel<GroupState<S, R, M>, R, M>)
    ensures forall g: GroupState<S, R, M>, rng: R, model: M, ll: Option<Float> ::
      k.stepWithLogLikelihood(g, rng, model, ll).Done? ==>
        k.stepWithLogLikelihood(g, rng, model, ll).value.state.currentLogLikelihood ==
        Some(k.stepWithLogLikelihood(g, rng, model, ll).value.ll)
    ensures forall g: GroupState<S, R, M> :: |g.members| == 0 ==> k.adaptState(g) == NotApplicable
  {
    Kernel(
      (g, rng, model) => GroupStep(g, rng, model),
      (g, rng, model, ll) => GroupStepWithLogLikelihood(g, rng, model, ll),
      (g, rng, m) => GroupDrawPrior(g, rng, m),
      g => GroupAdaptEnable(g),
      g => GroupAdaptDisable(g),
      g => GroupAdaptState(g))
  }

  /** An empty group moves nothing, and panics unless a likelihood is supplied. */
  lemma EmptyGroupStep<S(!new), R(!new), M(!new)>(cached: Option<Float>, rng: R, model: M, ll: Option<Float>)
    ensures var r := GroupStepWithLogLikelihood<S, R, M>(GroupState([], cached), rng, model, ll);
      if ll.None? then r == Abort(UnwrapNone)
      else r == Done(Moved(GroupState([], ll), rng, model, ll.value))
  {
    SweepShape<S, R, M>([], rng, model, ll, 0);
  }

  /**
   * A non-empty group whose members all step succeeds, returns the last
   * member's likelihood and caches it.
   */
  lemma {:induction false} NonEmptyGroupSteps<S(!new), R(!new), M(!new)>(g: GroupState<S, R, M>, rng: R, model: M, ll: Option<Float>)
    requires |g.members| > 0 && Sweep(g.members, rng, model, ll, |g.members|).Done?
    ensures var r := GroupStepWithLogLikelihood(g, rng, model, ll);
      r.Done? && r.value.state.currentLogLikelihood == Some(r.value.ll) &&
      |Sweep(g.members, rng, model, ll, |g.members|).value.states| == |g.members| &&
      forall i :: 0 <= i < |g.members| ==>
        r.value.state.members[i].state == Sweep(g.members, rng, model, ll, |g.members|).value.states[i]
  {
    SweepShape(g.members, rng, model, ll, |g.members|);
  }

  /** The group has the fields of `Group` as a class, updated in place by its methods. */
  class Group<S(!new), R(!new), M(!new)> {
    var subSteppers: seq<Member<S, R, M>>
    var currentLogLikelihood: Option<Float>

    function Fields(): GroupState<S, R, M>
      reads this
    {
      GroupState(subSteppers, currentLogLikelihood)
    }

    /** `Group::new`: no likelihood cached yet. */
    constructor (subSteppers: seq<Member<S, R, M>>)
      ensures Fields() == GroupState(subSteppers, None)
    {
      this.subSteppers := subSteppers;
      this.currentLogLikelihood := None;
    }

    /** The loop of `step_with_log_likelihood`: each member stepped in place, in order. */
    method SweepMembers(rng: R, model: M, ll: Option<Float>) returns (w: Fallible<Swept<S, R, M>>)
      modifies this
      ensures w == Sweep(old(subSteppers), rng, model, ll, |old(subSteppers)|)
      ensures currentLogLikelihood == old(currentLogLikelihood)
      ensures w.Done? ==> subSteppers == Updated(old(subSteppers), w.value.states)
    {
      ghost var m0 := subSteppers;
      var g := rng;
      var m := model;
      var l := ll;
      var states: seq<S> := [];
      var i := 0;
      while i < |subSteppers|
        invariant |subSteppers| == |m0| && 0 <= i <= |m0|
        invariant Sweep(m0, rng, model, ll, i) == Done(Swept(states, g, m, l))
        invariant |states| == i
        invariant forall j :: 0 <= j < i ==> subSteppers[j] == Member(m0[j].kernel, states[j])
        invariant forall j :: i <= j < |m0| ==> subSteppers[j] == m0[j]
        invariant currentLogLikelihood == old(currentLogLikelihood)
      {
        SweepShape(m0, rng, model, ll, i);
        var s := subSteppers[i];
        match s.kernel.stepWithLogLikelihood(s.state, g, m, l)
        case Abort(c) =>
          SweepAbortPersists(m0, rng, model, ll, i + 1, |m0|);
          return Abort(c);
        case Done(mv) =>
          subSteppers := subSteppers[i := Member(s.kernel, mv.state)];
          states := states + [mv.state];
          g, m, l := mv.rng, mv.model, Some(mv.ll);
        i := i + 1;
      }
      assert subSteppers == Updated(m0, states);
      return Done(Swept(states, g, m, l));
    }

    method StepWithLogLikelihood(rng: R, model: M, ll: Option<Float>) returns (r: Fallible<(R, M, Float)>)
      modifies this
      ensures match GroupStepWithLogLikelihood(old(Fields()), rng, model, ll)
        case Done(mv) => r == Done((mv.rng, mv.model, mv.ll)) && Fields() == mv.state
        case Abort(c) => r == Abort(c)
    {
      var w := SweepMembers(rng, model, ll);
      match w
      case Abort(c) =>
        return Abort(c);
      case Done(sw) =>
        currentLogLikelihood := sw.ll;
        if sw.ll.None? {
          return Abort(UnwrapNone);
        }
        return Done((sw.rng, sw.model, sw.ll.value));
    }

    method Step(rng: R, model: M) returns (r: Fallible<(R, M)>)
      modifies this
      ensures match GroupStep(old(Fields()), rng, model)
        case Done(q) => r == Done((q.rng, q.model)) && Fields() == q.state
        case Abort(c) => r == Abort(c)
    {
      var moved := StepWithLogLikelihood(rng, model, currentLogLikelihood);
      match moved
      case Done((g, m, _)) => return Done((g, m));
      case Abort(c) => return Abort(c);
    }

    function DrawPrior(rng: R, m: M): (r: (R, M))
      reads this
      ensures |subSteppers| == 0 ==> r == (rng, m)
      ensures |subSteppers| == 1 ==> r == subSteppers[0].kernel.drawPrior(subSteppers[0].state, rng, m)
    {
      GroupDrawPrior(Fields(), rng, m)
    }

    method AdaptEnable()
      modifies this
      ensures Fields() == GroupAdaptEnable(old(Fields()))
    {
      ghost var m0 := subSteppers;
      var i := 0;
      while i < |subSteppers|
        invariant |subSteppers| == |m0| && 0 <= i <= |m0|
        invariant forall j :: 0 <= j < i ==> subSteppers[j] == Member(m0[j].kernel, m0[j].kernel.adaptEnable(m0[j].state))
        invariant forall j :: i <= j < |m0| ==> subSteppers[j] == m0[j]
        invariant currentLogLikelihood == old(currentLogLikelihood)
      {
        var s := subSteppers[i];
        subSteppers := subSteppers[i := Member(s.kernel, s.kernel.adaptEnable(s.state))];
        i := i + 1;
      }
      assert subSteppers == GroupAdaptEnable(GroupState(m0, currentLogLikelihood)).members;
    }

    method AdaptDisable()
      modifies this
      ensures Fields() == GroupAdaptDisable(old(Fields()))
    {
      ghost var m0 := subSteppers;
      var i := 0;
      while i < |subSteppers|
        invariant |subSteppers| == |m0| && 0 <= i <= |m0|
        invariant forall j :: 0 <= j < i ==> subSteppers[j] == Member(m0[j].kernel, m0[j].kernel.adaptDisable(m0[j].state))
        invariant forall j :: i <= j < |m0| ==> subSteppers[j] == m0[j]
        invariant currentLogLikelihood == old(currentLogLikelihood)
      {
        var s := subSteppers[i];
        subSteppers := subSteppers[i := Member(s.kernel, s.kernel.adaptDisable(s.state))];
        i := i + 1;
      }
      assert subSteppers == GroupAdaptDisable(GroupState(m0, currentLogLikelihood)).members;
    }

    function AdaptState(): (r: AdaptState)
      reads this
      ensures |subSteppers| == 0 ==> r == NotApplicable
      ensures (exists i :: 0 <= i < |subSteppers| && subSteppers[i].kernel.adaptState(subSteppers[i].state) == On) &&
              (exists j :: 0 <= j < |subSteppers| && subSteppers[j].kernel.adaptState(subSteppers[j].state) == Off)
        ==> r == Mixed
    {
      GroupAdaptState(Fields())
    }
  }
}
