/**
 * `MeanAndVariance` of `utils/mean_and_variance.rs`: a running mean folded
 * over the values, with a count. Real numbers stand for the floats.
 */
module MeanAndVariances {

  datatype MeanAndVariance = MeanAndVariance(mean: real, variance: real, count: nat)

  /** `default`: nothing seen yet. */
  function Default(): (r: MeanAndVariance)
    ensures r.mean == 0.0 && r.variance == 0.0 && r.count == 0
  {
    MeanAndVariance(0.0, 0.0, 0)
  }

  /** The mean times the count: the sum of everything seen. */
  function Total(a: MeanAndVariance): real {
    a.mean * (a.count as real)
  }

  /** One step of the fold: the mean moves a `1/count` share of the way to `x`. */
  function Include(acc: MeanAndVariance, x: real): (r: MeanAndVariance)
    ensures r.count == acc.count + 1
    ensures Total(r) == Total(acc) + x
  {
    var count := acc.count + 1;
    var delta := x - acc.mean;
    var mean := acc.mean + delta / count as real;
    var delta2 := x - mean;
    assert (delta / count as real) * count as real == delta;
    MeanAndVariance(mean, delta * delta2, count)
  }

  /** `update`: the left fold of `Include` over `values`. */
  function Update(acc: MeanAndVariance, values: seq<real>): MeanAndVariance {
    if |values| == 0 then acc
    else Include(Update(acc, values[..|values| - 1]), values[|values| - 1])
  }

  function FromValues(values: seq<real>): MeanAndVariance {
    Update(Default(), values)
  }

  function Sum(values: seq<real>): real {
    if |values| == 0 then 0.0 else Sum(values[..|values| - 1]) + values[|values| - 1]
  }

  /** The count grows by the number of values, and no values leave the accumulator as it was. */
  lemma {:induction false} UpdateCount(acc: MeanAndVariance, values: seq<real>)
    ensures Update(acc, values).count == acc.count + |values|
    ensures |values| == 0 ==> Update(acc, values) == acc
  {
    if |values| > 0 {
      UpdateCount(acc, values[..|values| - 1]);
    }
  }

  /** The mean times the count is the old total plus the sum of the new values. */
  lemma {:induction false} UpdateTotal(acc: MeanAndVariance, values: seq<real>)
    ensures Total(Update(acc, values)) == Total(acc) + Sum(values)
  {
    if |values| > 0 {
      var init, x := values[..|values| - 1], values[|values| - 1];
      UpdateTotal(acc, init);
      var prev := Update(acc, init);
      assert Update(acc, values) == Include(prev, x);
      assert Sum(values) == Sum(init) + x;
    }
  }

  /** `from_values(xs).mean` is the arithmetic average of `xs`. */
  lemma FromValuesMeanIsAverage(values: seq<real>)
    requires |values| > 0
    ensures FromValues(values).mean == Sum(values) / (|values| as real)
  {
    UpdateCount(Default(), values);
    UpdateTotal(Default(), values);
    var r := FromValues(values);
    assert Total(Default()) == 0.0;
    assert r.mean * (r.count as real) == Sum(values);
    DivideBack(r.mean, r.count as real, Sum(values));
  }

  lemma DivideBack(m: real, n: real, s: real)
    requires n > 0.0 && m * n == s
    ensures m == s / n
  {
  }

  /**
   * The variance is not accumulated: it is the last value's
   * `(x − m_old)(x − m_new)` alone.
   */
  lemma VarianceIsLastTermOnly(acc: MeanAndVariance, values: seq<real>)
    requires |values| > 0
    ensures var x := values[|values| - 1];
      var before := Update(acc, values[..|values| - 1]);
      Update(acc, values).variance == (x - before.mean) * (x - Update(acc, values).mean)
  {
  }

  /** `update` is a left fold: updating with `a ++ b` is updating with `a`, then with `b`. */
  lemma {:induction false} UpdateAppend(acc: MeanAndVariance, a: seq<real>, b: seq<real>)
    ensures Update(acc, a + b) == Update(Update(acc, a), b)
  {
    if |b| == 0 {
      assert a + b == a;
    } else {
      UpdateAppend(acc, a, b[..|b| - 1]);
      assert (a + b)[..|a + b| - 1] == a + b[..|b| - 1];
      assert (a + b)[|a + b| - 1] == b[|b| - 1];
    }
  }
}
