/** `outer` of `utils/mod.rs`: the outer product of two vectors, written cell by cell into a new matrix. */
module OuterProducts {

  /** The outer product as a value: entry `(i, j)` is `left[i] · right[j]`. */
  function OuterProduct(left: seq<real>, right: seq<real>): (m: seq<seq<real>>)
    ensures |m| == |left|
    ensures forall i :: 0 <= i < |m| ==> |m[i]| == |right|
  {
    seq(|left|, i requires 0 <= i < |left| => seq(|right|, j requires 0 <= j < |right| => left[i] * right[j]))
  }

  /** The outer product of a vector with itself is symmetric. */
  lemma OuterSelfSymmetric(v: seq<real>, i: nat, j: nat)
    requires i < |v| && j < |v|
    ensures OuterProduct(v, v)[i][j] == OuterProduct(v, v)[j][i]
  {
  }

  /**
   * `outer`: a `|left|` by `|right|` matrix whose every cell the double loop
   * writes before it is returned.
   */
  method Outer(left: seq<real>, right: seq<real>) returns (res: array2<real>)
    ensures fresh(res)
    ensures res.Length0 == |left| && res.Length1 == |right|
    ensures forall i, j :: 0 <= i < |left| && 0 <= j < |right| ==> res[i, j] == OuterProduct(left, right)[i][j]
  {
    res := new real[|left|, |right|];
    for i := 0 to |left|
      invariant forall i', j :: 0 <= i' < i && 0 <= j < |right| ==> res[i', j] == left[i'] * right[j]
    {
      FillRow(res, i, left, right);
    }
  }

  /** The inner loop of `outer`: row `i` receives `left[i] · right[j]` and no other cell changes. */
  method FillRow(res: array2<real>, i: nat, left: seq<real>, right: seq<real>)
    requires i < |left| && i < res.Length0 && res.Length1 == |right|
    modifies res
    ensures forall j :: 0 <= j < |right| ==> res[i, j] == left[i] * right[j]
    ensures forall i', j :: 0 <= i' < res.Length0 && i' != i && 0 <= j < res.Length1 ==> res[i', j] == old(res[i', j])
  {
    for j := 0 to |right|
      invariant forall j' :: 0 <= j' < j ==> res[i, j'] == left[i] * right[j']
      invariant forall i', j' :: 0 <= i' < res.Length0 && i' != i && 0 <= j' < res.Length1 ==> res[i', j'] == old(res[i', j'])
    {
      res[i, j] := left[i] * right[j];
    }
  }
}
