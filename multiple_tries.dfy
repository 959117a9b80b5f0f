/**
 * `multiple_tries` of `utils.rs`. The closure may keep state between calls:
 * it is a function of the try index and of its state, returning its verdict
 * and its next state.
 */
module MultipleTries {

  /** The closure's state before try `i`. */
  function StateBefore<Q>(f: (nat, Q) -> (bool, Q), q0: Q, i: nat): Q {
    if i == 0 then q0 else f(i - 1, StateBefore(f, q0, i - 1)).1
  }

  /** Whether try `i` succeeds, after the tries before it. */
  predicate Succeeds<Q>(f: (nat, Q) -> (bool, Q), q0: Q, i: nat) {
    f(i, StateBefore(f, q0, i)).0
  }

  /**
   * True exactly when one of the tries `0 .. nTries - 1` succeeds; the tries
   * run in order and stop at the first success, so `calls` is one past the
   * first successful index, or `nTries` when none succeeds.
   */
  method MultipleTries<Q>(nTries: nat, f: (nat, Q) -> (bool, Q), q0: Q) returns (found: bool, calls: nat, q: Q)
    ensures found <==> exists i :: 0 <= i < nTries && Succeeds(f, q0, i)
    ensures calls <= nTries
    ensures found ==> calls >= 1 && Succeeds(f, q0, calls - 1)
    ensures forall i :: 0 <= i < calls - (if found then 1 else 0) ==> !Succeeds(f, q0, i)
    ensures !found ==> calls == nTries
    ensures q == StateBefore(f, q0, calls)
  {
    q := q0;
    calls := 0;
    for i := 0 to nTries
      invariant calls == i && q == StateBefore(f, q0, i)
      invariant forall j :: 0 <= j < i ==> !Succeeds(f, q0, j)
    {
      var (ok, next) := f(i, q);
      q := next;
      calls := i + 1;
      if ok {
        assert Succeeds(f, q0, i);
        return true, calls, q;
      }
    }
    return false, calls, q;
  }
}
