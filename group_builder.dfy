/** The builder of `steppers/group/builder.rs`: one sub-stepper built per sub-builder, in order. */
module GroupBuilders {
  import opened Outcomes
  import opened SteppingAlgs
  import opened GroupSteppers

  /**
   * A group builder holds its sub-builders; each sub-builder is represented
   * by the stepper its `build` produces.
   */
  datatype GroupBuilder<!S(!new), !R(!new), !M(!new)> = GroupBuilder(subStepperBuilders: seq<Member<S, R, M>>)

  /** `build`: a new group of the built sub-steppers, in the builders' order, with nothing cached. */
  method Build<S(!new), R(!new), M(!new)>(b: GroupBuilder<S, R, M>) returns (g: Group<S, R, M>)
    ensures fresh(g)
    ensures g.Fields() == GroupState(b.subStepperBuilders, None)
  {
    g := new Group(b.subStepperBuilders);
  }

  /** The built group as a stepper value, for a driver that takes any stepper. */
  function BuiltMember<S(!new), R(!new), M(!new)>(b: GroupBuilder<S, R, M>): (m: Member<GroupState<S, R, M>, R, M>)
    ensures m.kernel == GroupKernel()
    ensures |m.state.members| == |b.subStepperBuilders| && m.state.currentLogLikelihood.None?
    ensures forall i :: 0 <= i < |b.subStepperBuilders| ==> m.state.members[i] == b.subStepperBuilders[i]
  {
    Member(GroupKernel(), GroupState(b.subStepperBuilders, None))
  }
}
