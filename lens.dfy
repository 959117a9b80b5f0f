/**
 * Lenses: a getter and a setter that focus on one value of type T inside an
 * aggregate of type S. `Set` builds a new aggregate; values are immutable
 * here, so the aggregate it is given is never changed.
 */
module Lenses {

  datatype Lens<!T(!new), !S(!new)> = Lens(getFunc: S -> T, setFunc: (S, T) -> S)
  {
    /** The focused value of `s`. */
    function Get(s: S): T { getFunc(s) }

    /** A copy of `s` whose focused value is `x`. */
    function Set(s: S, x: T): S { setFunc(s, x) }

    /** `Clone` copies both function pointers. */
    function Clone(): (c: Lens<T, S>)
      ensures forall s :: c.Get(s) == Get(s)
      ensures forall s, x :: c.Set(s, x) == Set(s, x)
    {
      Lens(getFunc, setFunc)
    }
  }

  /** You get back what you set. */
  ghost predicate GetSet<T(!new), S(!new)>(l: Lens<T, S>) {
    forall s, x :: l.Get(l.Set(s, x)) == x
  }

  /** Setting what is already there changes nothing. */
  ghost predicate SetGet<T(!new), S(!new)>(l: Lens<T, S>) {
    forall s :: l.Set(s, l.Get(s)) == s
  }

  /** A second set overrides the first. */
  ghost predicate SetSet<T(!new), S(!new)>(l: Lens<T, S>) {
    forall s, x, y :: l.Set(l.Set(s, x), y) == l.Set(s, y)
  }

  ghost predicate Lawful<T(!new), S(!new)>(l: Lens<T, S>) {
    GetSet(l) && SetGet(l) && SetSet(l)
  }

  /**
   * An aggregate with one named field and everything else, the shape that
   * `make_lens!` works on: `rest` stands for the fields that `..*s` copies.
   */
  datatype Record<T, R> = Record(field: T, rest: R)

  /** The lens `make_lens!` builds for the named field. */
  function FieldLens<T(!new), R(!new)>(): (l: Lens<T, Record<T, R>>)
    ensures forall s :: l.Get(s) == s.field
    ensures forall s, x :: l.Set(s, x).field == x && l.Set(s, x).rest == s.rest
    ensures Lawful(l)
  {
    Lens((s: Record<T, R>) => s.field, (s: Record<T, R>, x: T) => Record(x, s.rest))
  }

  /** A mutable location holding an aggregate, the `&mut S` of `set_in_place`. */
  class Cell<S> {
    var value: S

    constructor (v: S)
      ensures value == v
    {
      value := v;
    }
  }

  /** `set_in_place` overwrites the location with the lens' copy. */
  method SetInPlace<T(!new), S(!new)>(l: Lens<T, S>, c: Cell<S>, x: T)
    modifies c
    ensures c.value == l.Set(old(c.value), x)
  {
    c.value := l.Set(c.value, x);
  }

  /** The aggregate of the documentation and test examples: `struct Foo { bar: i32 }`. */
  datatype Foo = Foo(bar: int)

  function FooBarLens(): (l: Lens<int, Foo>)
    ensures Lawful(l)
    ensures l.Get(Foo(1)) == 1 && l.Set(Foo(1), 2).bar == 2
  {
    Lens((x: Foo) => x.bar, (x: Foo, y: int) => Foo(y))
  }
}
