/** The adaptation state a stepper reports, and how a group combines its members' states. */
module AdaptStates {

  datatype AdaptState = On | Off | Mixed | NotApplicable

  /** `AdaptState::merge`. */
  function Merge(a: AdaptState, b: AdaptState): (r: AdaptState)
    ensures a == NotApplicable ==> r == b
    ensures b == NotApplicable ==> r == a
    ensures a == b ==> r == a
    ensures r == Mixed <==> a == Mixed || b == Mixed || {a, b} == {On, Off}
  {
    match (a, b)
    case (NotApplicable, x) => x
    case (x, NotApplicable) => x
    case (On, On) => On
    case (Off, Off) => Off
    case _ => Mixed
  }

  lemma MergeCommutative(a: AdaptState, b: AdaptState)
    ensures Merge(a, b) == Merge(b, a)
  {
  }

  lemma MergeAssociative(a: AdaptState, b: AdaptState, c: AdaptState)
    ensures Merge(Merge(a, b), c) == Merge(a, Merge(b, c))
  {
  }

  /** `Mixed` absorbs every state except `NotApplicable`, which it survives. */
  lemma MixedAbsorbs(a: AdaptState)
    ensures Merge(Mixed, a) == Mixed && Merge(a, Mixed) == Mixed
  {
  }

  /** A left fold of `Merge` from `NotApplicable`, as the group's `adapt_state` computes it. */
  function MergeAll(states: seq<AdaptState>): (r: AdaptState)
    ensures |states| == 0 ==> r == NotApplicable
    ensures (forall i :: 0 <= i < |states| ==> states[i] == NotApplicable) ==> r == NotApplicable
    ensures r == NotApplicable ==> forall i :: 0 <= i < |states| ==> states[i] == NotApplicable
    ensures (forall i :: 0 <= i < |states| ==> states[i] in {On, NotApplicable}) && On in states ==> r == On
    ensures (forall i :: 0 <= i < |states| ==> states[i] in {Off, NotApplicable}) && Off in states ==> r == Off
    ensures On in states && Off in states ==> r == Mixed
    ensures Mixed in states ==> r == Mixed
  {
    if |states| == 0 then NotApplicable
    else Merge(MergeAll(states[..|states| - 1]), states[|states| - 1])
  }
}
