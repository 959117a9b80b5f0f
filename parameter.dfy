/**
 * A named model parameter: a prior distribution over its values and a lens
 * that reaches the value inside the model.
 */
module Parameters {
  import opened Floats
  import opened Outcomes
  import opened Lenses

  /** The random bits a draw consumes. */
  type Seed = nat

  /**
   * The part of a prior distribution the samplers use: a draw driven by the
   * random bits it is given, the log density `ln_f`, and the mean and
   * variance when the distribution has them.
   */
  datatype Prior<!T(!new)> = Prior(sample: Seed -> T, lnF: T -> Float, mean: Option<T>, variance: Option<T>)

  datatype Parameter<!T(!new), !S(!new)> = Parameter(name: string, prior: Prior<T>, lens: Lens<T, S>)
  {
    /** `clone` copies the name, the prior and the lens. */
    function Clone(): (p: Parameter<T, S>)
      ensures p.name == name && p.prior == prior
      ensures forall s :: p.lens.Get(s) == lens.Get(s)
      ensures forall s, x :: p.lens.Set(s, x) == lens.Set(s, x)
    {
      Parameter(name, prior, lens.Clone())
    }

    /** `draw` puts one prior draw into a copy of `s`. */
    function Draw(s: S, seed: Seed): (r: S)
      ensures GetSet(lens) ==> lens.Get(r) == prior.sample(seed)
      ensures Lawful(lens) ==> lens.Set(r, lens.Get(s)) == s
    {
      lens.Set(s, prior.sample(seed))
    }
  }

  /** Through a `make_lens!` lens a draw replaces the field and keeps the rest of the aggregate. */
  lemma DrawThroughFieldLens<T(!new), R(!new)>(name: string, prior: Prior<T>, s: Record<T, R>, seed: Seed)
    ensures Parameter(name, prior, FieldLens<T, R>()).Draw(s, seed) == Record(prior.sample(seed), s.rest)
  {
  }
}
