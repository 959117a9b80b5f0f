# rmcmc: a Dafny model of the adaptive Metropolis–Hastings core

rmcmc is a Rust library for adaptive Markov chain Monte Carlo. A *model* is any
user value. A *parameter* reaches one value inside it through a *lens* (a
getter and a setter) and carries a prior. A *stepper* moves the model one
Metropolis–Hastings step along that parameter. It proposes a new value, scores
it with the prior and the user's log-likelihood, and accepts it, or keeps the
old value, by comparing a log-uniform draw with the log acceptance ratio.
Every decision goes to an *adaptor*, which tunes the proposal scale while
adaptation is enabled. The *simple* adaptor watches the acceptance rate over a
fixed window. The *global* adaptor is a Robbins–Monro recurrence on a mean, a
scale and a log-multiplier.

Steppers compose into *groups*, which step each member in turn. The *runner*
enables adaptation for a warm-up, disables it, and then keeps a thinned run of
draws from every chain. The repository holds several revisions of the same
modules side by side. Their behaviour differs in small ways, so each revision
is modelled as written, in a module of its own.

How the model is built:

- **Floating point.** Scores and log-ratios can be infinite or NaN, so they are
  `Floats.Float = Finite(r) | NegInf | PosInf | NaN` with IEEE addition,
  subtraction, comparison and `min`. Finite values are exact reals.
- **exp and powf.** Both are parameters: `Numerics`, together with the
  requirement that `exp` is positive and that the power `k^0.9` is at
  least 1 for k ≥ 1.
- **Panics.** Every `assert!`, `unwrap` of `None`, `expect` and
  `step_by(0)` is an `Outcomes.Fallible` result, `Abort(cause)`.
- **Randomness** is an input that the caller passes in:
  - the proposed value (Gaussian draw);
  - the magnitude and direction (geometric draw and coin);
  - ln u for the accept/reject decision;
  - the coins and the shuffled order of the binary Gibbs sampler;
  - the random-number generator, a value threaded through the driver.
- **Imperative files.** A stepper or adaptor whose fields the source updates in
  place is a `class`. Each method ensures that its new fields equal a pure
  transition function of the old fields (`Transition`, `Advance`). The source's
  promises are proved as lemmas about those functions.
- **The stepper interface.** The library's `SteppingAlg` trait is the record
  `SteppingAlgs.Kernel` of such transition functions, and
  `SteppingAlgs.Stepper` is the stateful object that drives one. Groups and
  the runner are written against `Kernel`.

## Model

| member | source | states |
|---|---|---|
| Lenses.Lens.Clone | src/lens.rs:33-37 | the clone reads and writes exactly as the original lens does |
| Lenses.FieldLens | src/lens.rs:17-23 | the `make_lens!` lens gets the named field, sets it, keeps every other field, and obeys get-set, set-get and set-set |
| Lenses.Cell.constructor | src/lens.rs:59 | the mutable location `&mut S` holds the value it is created with |
| Lenses.SetInPlace | src/lens.rs:59-61 | afterwards the location holds `set(old value, x)` |
| Lenses.FooBarLens | src/lens.rs:98-131 | the lens of the tests is lawful, reads 1 from `Foo { bar: 1 }`, and a set of 2 gives `bar == 2` |
| Parameters.Parameter.Clone | src/parameter.rs:36-44 | the clone has the same name and prior, and a lens that behaves identically |
| Parameters.Parameter.Draw | src/parameter.rs:60-64 | through a lawful lens, the result holds the prior's draw and the input is recovered by setting back its old value |
| Parameters.DrawThroughFieldLens | src/parameter.rs:60-64 | through a `make_lens!` lens a draw replaces only the named field |
| MetropolisHastingsUtils.MetropolisSelect | src/steppers/metropolis_hastings_utils.rs:26-44 | panics exactly on a NaN log-ratio. Otherwise it carries `min(Δ, 0)`, always accepts when Δ ≥ 0, accepts iff ln u < Δ when Δ < 0, and carries the proposed value on accept and the current one on reject |
| MetropolisHastingsUtils.CarriedLogAlphaNotPositive | src/steppers/metropolis_hastings_utils.rs:36-41 | for a non-NaN Δ the carried log value is never NaN and never positive |
| MetropolisHastingsUtils.NegInfNeverAccepted | src/steppers/metropolis_hastings_utils.rs:36-41 | Δ = −∞ is rejected and carries −∞ |
| MetropolisHastingsUtils.AcceptanceMonotone | src/steppers/metropolis_hastings_utils.rs:36-41 | for a fixed ln u, raising Δ never turns an acceptance into a rejection |
| MhAcceptReject.MetropolisProposal | src/steppers/helpers/mh_accept_reject.rs:35-49 | carries `min(Δ, 0)` and always accepts when Δ ≥ 0. When Δ < 0 it accepts iff ln u < Δ. A NaN Δ is accepted with log value 0 |
| MhAcceptReject.CarriedLogAlphaNotPositive | src/steppers/helpers/mh_accept_reject.rs:41-46 | whatever Δ is, the carried log value is neither NaN nor positive |
| MhAcceptReject.AcceptanceMonotone | src/steppers/helpers/mh_accept_reject.rs:41-46 | acceptance is monotone in a non-NaN Δ |
| StepperUtil.MetropolisSelect | src/steppers/util.rs:24-35 | accepts iff ln u < Δ, carries the unclipped Δ in both outcomes, and owns the proposed or the current value |
| StepperUtil.NonNegativeDeltaAccepted | src/steppers/util.rs:24-35 | with ln u from [0, 1), every Δ ≥ 0 is accepted |
| StepperUtil.NanRejected | src/steppers/util.rs:24-35 | a NaN Δ is always rejected |
| AdaptStates.Merge | src/steppers/adaptors/adaptor_state.rs:11-20 | `NotApplicable` is a two-sided identity and merge is idempotent. The result is `Mixed` iff either side is `Mixed` or the two are `On` and `Off` |
| AdaptStates.MergeCommutative | src/steppers/adaptors/adaptor_state.rs:11-20 | merge is commutative |
| AdaptStates.MergeAssociative | src/steppers/adaptors/adaptor_state.rs:11-20 | merge is associative |
| AdaptStates.MixedAbsorbs | src/steppers/adaptors/adaptor_state.rs:18 | `Mixed` absorbs every state from either side |
| AdaptStates.MergeAll | src/steppers/group/stepper.rs:129-135 | the fold from `NotApplicable`: empty or all-`NotApplicable` gives `NotApplicable` and conversely; `On` (or `Off`) members only give `On` (`Off`); `On` together with `Off`, or any `Mixed`, gives `Mixed` |
| AdaptorSimple.BandFactorBands | src/steppers/adaptor/simple.rs:59-71 | the factor is one of 0.01, 0.5, 0.2, 10, 2, 1.1 and 1, always positive. It is below 1 iff the mean acceptance is below 0.2 and above 1 iff the mean is above 0.5; a mean in [0.2, 0.5], or a NaN mean, leaves the scale as it is |
| AdaptorSimple.Rescaled | src/steppers/adaptor/simple.rs:59-71 | the window-end rescaling, band by band; a positive scale stays positive |
| AdaptorSimple.RescaledIsProduct | src/steppers/adaptor/simple.rs:59-71 | the rescaling is multiplication by the band factor |
| AdaptorSimple.BandFactorNotMonotone | src/steppers/adaptor/simple.rs:59-71 | a mean of 0.04 shrinks the scale less than a mean of 0.1 |
| AdaptorSimple.Advance | src/steppers/adaptor/simple.rs:48-77 | when disabled nothing changes. When enabled the counter and `exp(log α)` accumulate until the window fills; then the scale is rescaled by the band of the mean and both counters reset. A positive scale stays positive, the counter stays below the interval, and the interval, initial scale and switch are kept |
| AdaptorSimple.ResetState | src/steppers/adaptor/simple.rs:98-102 | zeroes both counters, restores the initial scale and leaves the switch and interval alone |
| AdaptorSimple.AdvanceNAdditive | src/steppers/adaptor/simple.rs:48-77 | a+b updates equal a updates followed by b updates |
| AdaptorSimple.PartialWindow | src/steppers/adaptor/simple.rs:50-56 | fewer updates than the window only count and accumulate α |
| AdaptorSimple.WindowMean | src/steppers/adaptor/simple.rs:57-58 | the mean over a full window of a constant α is that α |
| AdaptorSimple.FullWindow | src/steppers/adaptor/simple.rs:57-75 | a full window of a constant α multiplies the scale by that α's band factor and returns the counters to zero |
| AdaptorSimple.FullWindowAtPower | src/steppers/adaptor/simple.rs:57-75 | from scale f^k, a full window gives f^(k+1) |
| AdaptorSimple.ManyWindows | src/steppers/adaptor/simple.rs:57-75 | w full windows from scale f^k give f^(k+w) |
| AdaptorSimple.ExpectedScalingTest | src/steppers/adaptor/simple.rs:134-144 | 100 enabled updates with α = 0.51 and a window of 10 give scale 1.1^10 |
| AdaptorSimple.HighAcceptanceTest | src/steppers/adaptor/simple.rs:110-132 | 100 updates whose α exceeds 0.95 (log values 0.5 and 0.1) end with scale above 1 |
| AdaptorSimple.SimpleAdaptor.constructor | src/steppers/adaptor/simple.rs:31-41 | zero counters, scale and initial scale the argument, disabled |
| AdaptorSimple.SimpleAdaptor.Update | src/steppers/adaptor/simple.rs:48-77 | the fields become `Advance` of the old fields |
| AdaptorSimple.SimpleAdaptor.SetMode | src/steppers/adaptor/simple.rs:83-96 | sets only the switch, and `Mode` then reports the mode set |
| AdaptorSimple.SimpleAdaptor.Reset | src/steppers/adaptor/simple.rs:98-102 | the fields become `ResetState` of the old fields |
| AdaptorsSimple.SimpleAdaptor.constructor | src/steppers/adaptors/simple.rs:31-41 | zero counters, scale equal to the initial scale, and state `Off` |
| AdaptorsSimple.SimpleAdaptor.Update | src/steppers/adaptors/simple.rs:48-77 | the same windowed transition as the other revision, with the banded multipliers |
| AdaptorsSimple.SimpleAdaptor.Enable | src/steppers/adaptors/simple.rs:79-89 | sets only the switch; the state is then `On` |
| AdaptorsSimple.SimpleAdaptor.Disable | src/steppers/adaptors/simple.rs:79-93 | clears only the switch; the state is then `Off` |
| AdaptorGlobal.Gain | src/steppers/adaptor/global.rs:89-90 | the gain `0.9 / (step+1)^0.9` lies in (0, 0.9] |
| AdaptorGlobal.Toward | src/steppers/adaptor/global.rs:94-99 | a gain step from a toward a+d lands between them and never on a+d |
| AdaptorGlobal.NextLogLambda | src/steppers/adaptor/global.rs:100-102 | log λ rises iff α exceeds the 0.234 target and is unchanged iff they are equal; an infinite or NaN α gives an infinite or NaN log λ |
| AdaptorGlobal.Estimate | src/steppers/adaptor/global.rs:85-103 | the new mean lies between the old mean and the value; the new scale lies between the old scale and δ² and stays positive; log λ follows the target; the proposal scale is `scale · exp(log λ)` |
| AdaptorGlobal.MinZeroClipped | src/steppers/metropolis_hastings_utils.rs:36 | a clipped log-ratio is −∞ or a finite value ≤ 0 |
| AdaptorGlobal.AssertHolds | src/steppers/adaptor/global.rs:104-107 | with a positive scale and a clipped log-ratio, the proposal scale the assert checks is finite and positive |
| AdaptorGlobal.InfiniteLogAlphaPanics | src/steppers/adaptor/global.rs:104-107 | an unclipped +∞ log-ratio yields a proposal scale the assert rejects |
| AdaptorGlobal.NanLogAlphaPanics | src/steppers/adaptor/global.rs:104-107 | a NaN log-ratio yields a NaN proposal scale, which the assert rejects |
| AdaptorGlobal.Advance | src/steppers/adaptor/global.rs:85-115 | disabled: no change. Enabled: it panics iff the new proposal scale is not finite and positive, and writes nothing in that case; otherwise it updates the mean, scale, log λ and proposal scale and steps the counter |
| AdaptorGlobal.ClippedUpdateNeverPanics | src/steppers/adaptor/global.rs:85-115 | from a positive scale, a clipped update succeeds and keeps the scale and the proposal scale positive |
| AdaptorGlobal.SelectedUpdateNeverPanics | src/steppers/adaptor/global.rs:85-115 | the update carried by a non-NaN `metropolis_select` decision never trips the assert |
| AdaptorGlobal.ResetState | src/steppers/adaptor/global.rs:136-143 | restores the initial proposal scale, mean and scale, zeroes the step and log λ, and disables |
| AdaptorGlobal.GlobalAdaptor.constructor | src/steppers/adaptor/global.rs:45-58 | log λ 0, step 0, target 0.234, disabled, with the initial values recorded |
| AdaptorGlobal.GlobalAdaptor.Copy | src/steppers/adaptor/global.rs:9-29 | a copy holding the given fields, the derived `Clone` |
| AdaptorGlobal.GlobalAdaptor.InitialScale | src/steppers/adaptor/global.rs:61-67 | a fresh adaptor differing only in the proposal scale and its initial value |
| AdaptorGlobal.GlobalAdaptor.InitialMeanAndVariance | src/steppers/adaptor/global.rs:70-78 | a fresh adaptor differing only in the mean and scale and their initial values |
| AdaptorGlobal.GlobalAdaptor.Update | src/steppers/adaptor/global.rs:85-115 | the fields become `Advance` of the old fields, or stay untouched when it panics |
| AdaptorGlobal.GlobalAdaptor.SetMode | src/steppers/adaptor/global.rs:121-134 | sets only the switch; `Mode` then mirrors it |
| AdaptorGlobal.GlobalAdaptor.Reset | src/steppers/adaptor/global.rs:136-143 | the fields become `ResetState` of the old fields |
| AdaptorsGlobal.Advance | src/steppers/adaptors/global_adaptor.rs:68-98 | the same recurrence and assert as the other revision; disabled is a no-op |
| AdaptorsGlobal.StatusUpdateNeverPanics | src/steppers/adaptors/global_adaptor.rs:68-98 | the value and log α carried by `metropolis_proposal` never trip the assert from a positive scale |
| AdaptorsGlobal.GlobalAdaptor.constructor | src/steppers/adaptors/global_adaptor.rs:34-44 | log λ 0, step 0, target 0.234, disabled |
| AdaptorsGlobal.GlobalAdaptor.Copy | src/steppers/adaptors/global_adaptor.rs:10-31 | a copy holding the given fields |
| AdaptorsGlobal.GlobalAdaptor.InitialScale | src/steppers/adaptors/global_adaptor.rs:47-52 | changes only the proposal scale |
| AdaptorsGlobal.GlobalAdaptor.InitialMeanAndVariance | src/steppers/adaptors/global_adaptor.rs:55-61 | changes only the mean and the scale |
| AdaptorsGlobal.GlobalAdaptor.Update | src/steppers/adaptors/global_adaptor.rs:68-98 | the fields become `Advance` of the old fields, or stay untouched when it panics |
| AdaptorsGlobal.GlobalAdaptor.Enable | src/steppers/adaptors/global_adaptor.rs:100-110 | sets only the switch; the state is then `On` |
| AdaptorsGlobal.GlobalAdaptor.Disable | src/steppers/adaptors/global_adaptor.rs:100-114 | clears only the switch; the state is then `Off` |
| SrwmCore.Score | src/steppers/srwm/stepper/scalar.rs:36-84 | uses the supplied log-likelihood and the cached prior when present. It maps a NaN proposed prior to −∞ where the revision does, evaluates the likelihood exactly when the proposed prior is finite, and forms Δ = proposed score − current score; `evaluated` lists the models the likelihood was called on |
| SrwmCore.OutOfSupportRatio | src/steppers/srwm/stepper/scalar.rs:57-79 | a −∞ (or mapped NaN) proposed prior skips the likelihood, and from a finite current score Δ is −∞ |
| SrwmCore.BothOutOfSupportRatio | src/steppers/srwm/stepper/scalar.rs:57-84 | when the current score is −∞ too, Δ is NaN |
| SrwmCore.Conclude | src/steppers/srwm/stepper/scalar.rs:97-104 | reject returns the input model and current log-likelihood with the caches kept. Accept caches and returns the proposal, and panics when no proposed log-likelihood exists |
| SrwmCore.AcceptedHoldsProposal | src/steppers/srwm/stepper/scalar.rs:98-101 | through a lens with get-set, an accepted model reads back the proposed value |
| SrwmScalar.Transition | src/steppers/srwm/stepper/scalar.rs:29-105 | a non-positive proposal scale panics after the current state is scored, before any proposal is made; `InSupportStep`, `OutOfSupportRejected` and `BothOutOfSupportPanics` state the other outcomes |
| SrwmScalar.InSupportStep | src/steppers/srwm/stepper/scalar.rs:29-105 | with a proposed prior in support, the step succeeds; reject keeps model, log-likelihood and caches; accept returns `lens.set(model, proposed)` and caches its scores |
| SrwmScalar.OutOfSupportRejected | src/steppers/srwm/stepper/scalar.rs:57-103 | a NaN or −∞ proposed prior from a finite current score is rejected and changes no cache |
| SrwmScalar.BothOutOfSupportPanics | src/steppers/srwm/stepper/scalar.rs:84-101 | a −∞ current score with an out-of-support proposal is accepted on the NaN ratio and panics on the missing log-likelihood |
| SrwmScalar.ScalarSrwm.constructor | src/steppers/srwm/stepper/mod.rs:45-58 | keeps the parameter, likelihood and adaptor; both caches empty |
| SrwmScalar.ScalarSrwm.StepWithLogLikelihood | src/steppers/srwm/stepper/scalar.rs:29-105 | result, caches and adaptor are those of `Transition` on the old state |
| SrwmScalar.ScalarSrwm.Step | src/steppers/srwm/stepper/scalar.rs:24-27 | `Transition` with the cached log-likelihood as the supplied one |
| SrwmScalar.ScalarSrwm.AdaptEnable | src/steppers/srwm/stepper/scalar.rs:110-112 | enables the adaptor and nothing else; the state is `On` |
| SrwmScalar.ScalarSrwm.AdaptDisable | src/steppers/srwm/stepper/scalar.rs:114-116 | disables the adaptor and nothing else; the state is `Off` |
| SrwmScalar.ScalarSrwm.DrawPrior | src/steppers/srwm/stepper/scalar.rs:106-108 | through a get-set lens the result holds the prior's draw, and through a lawful lens setting back the old value recovers the input |
| SrwmScalar.ScalarSrwm.AdaptState | src/steppers/srwm/stepper/scalar.rs:118-120 | `On` exactly when the adaptor is enabled, `Off` exactly when it is not |
| SrwmAlt.NanLikelihoodAccepted | src/steppers/srwm/stepper.rs:114-140 | this revision does not map a NaN likelihood: an in-support proposal whose likelihood is NaN is accepted and the NaN is cached and returned |
| SrwmAlt.NanLikelihoodMapped | src/steppers/srwm/stepper/scalar.rs:70-79 | the scalar revision caches −∞ instead of a NaN likelihood |
| SrwmAlt.Srwm.constructor | src/steppers/srwm/stepper.rs:45-58 | keeps the parameter, likelihood and adaptor; both caches empty |
| SrwmAlt.Srwm.StepWithLogLikelihood | src/steppers/srwm/stepper.rs:75-143 | result, caches and adaptor are those of the scalar `Transition` without NaN-likelihood mapping |
| SrwmAlt.Srwm.Step | src/steppers/srwm/stepper.rs:70-73 | the same with the cached log-likelihood |
| SrwmAlt.Srwm.AdaptEnable | src/steppers/srwm/stepper.rs:148-150 | enables the adaptor; the state is `On` |
| SrwmAlt.Srwm.AdaptDisable | src/steppers/srwm/stepper.rs:152-154 | disables the adaptor; the state is `Off` |
| SrwmAlt.Srwm.DrawPrior | src/steppers/srwm/stepper.rs:144-146 | through a get-set lens the result holds the prior's draw, and through a lawful lens setting back the old value recovers the input |
| SrwmAlt.Srwm.AdaptState | src/steppers/srwm/stepper.rs:156-158 | `On` exactly when the adaptor is enabled, `Off` exactly when it is not |
| SrwmVector.VectorAdaptor.constructor | src/steppers/srwm/stepper/vector.rs:42-44 | holds the proposal covariance, disabled, with no decisions received |
| SrwmVector.VectorAdaptor.Update | src/steppers/srwm/stepper/vector.rs:79 | appends the decision to those received |
| SrwmVector.VectorAdaptor.Enable | src/steppers/srwm/stepper/vector.rs:95-97 | sets only the switch; the state is `On` |
| SrwmVector.VectorAdaptor.Disable | src/steppers/srwm/stepper/vector.rs:99-101 | clears only the switch; the state is `Off` |
| SrwmVector.Transition | src/steppers/srwm/stepper/vector.rs:25-90 | a covariance that does not match the current vector panics with `InvalidCovariance`; `VectorStepOutcomes` states the other outcomes |
| SrwmVector.VectorStepOutcomes | src/steppers/srwm/stepper/vector.rs:50-89 | the adaptor receives `mh_accept_reject`'s status for ln u and the log-ratio; an in-support proposal succeeds; reject keeps model, log-likelihood and caches; accept returns `lens.set(model, proposed)` with its own log-likelihood and caches its scores; an out-of-support proposal from a finite score is rejected |
| SrwmVector.VectorSrwm.constructor | src/steppers/srwm/stepper/mod.rs:45-58 | keeps the parameter, likelihood and adaptor; caches empty |
| SrwmVector.VectorSrwm.StepWithLogLikelihood | src/steppers/srwm/stepper/vector.rs:25-90 | result and caches of `Transition`; the adaptor receives exactly one decision |
| SrwmVector.VectorSrwm.Step | src/steppers/srwm/stepper/vector.rs:20-23 | the same with the cached log-likelihood |
| SrwmVector.VectorSrwm.AdaptEnable | src/steppers/srwm/stepper/vector.rs:95-97 | enables the adaptor; the state is `On` |
| SrwmVector.VectorSrwm.AdaptDisable | src/steppers/srwm/stepper/vector.rs:99-101 | disables the adaptor; the state is `Off` |
| SrwmVector.VectorSrwm.DrawPrior | src/steppers/srwm/stepper/vector.rs:91-93 | through a get-set lens the result holds the prior's draw, and through a lawful lens setting back the old value recovers the input |
| SrwmVector.VectorSrwm.AdaptState | src/steppers/srwm/stepper/vector.rs:103-105 | `On` exactly when the adaptor is enabled, `Off` exactly when it is not |
| SrwmOld.AsAdaptorUpdate | src/steppers/srwm.rs:168-169 | the decision handed to the adaptor keeps its tag, value and log value |
| SrwmOld.Transition | src/steppers/srwm.rs:135-181 | a non-positive proposal scale panics after the current state is scored, before any proposal is made; `InSupportStep`, `UnadaptedStep`, `EnteringSupportPanicsWhileAdapting` and `BothOutOfSupportPanicsWhileAdapting` state the other outcomes |
| SrwmOld.UnadaptedStep | src/steppers/srwm.rs:135-181 | with adaptation off the step never panics and leaves the adaptor alone; an out-of-support proposal from a finite score is rejected with the caches kept |
| SrwmOld.EnteringSupportPanicsWhileAdapting | src/steppers/srwm.rs:159-169 | moving from a −∞ score into support gives Δ = +∞, which an enabled adaptor's assert rejects |
| SrwmOld.InSupportStep | src/steppers/srwm.rs:155-179 | between finite scores, with a positive variance estimate while adapting, the step succeeds; it accepts iff ln u < Δ; the adaptor becomes `update` on the unclipped Δ; accept returns `lens.set(model, proposed)` with `Some` of its log-likelihood and caches its scores; reject returns the input model with `Some` of the current log-likelihood and keeps the caches |
| SrwmOld.BothOutOfSupportPanicsWhileAdapting | src/steppers/srwm.rs:147-169 | from a −∞ score to an out-of-support proposal Δ is NaN; `metropolis_select` rejects it but passes the NaN on, and an enabled adaptor's assert fails |
| SrwmOld.Srwm.Init | src/steppers/srwm.rs:52-73 | keeps the parameter, likelihood and adaptor; caches empty |
| SrwmOld.Srwm.New | src/steppers/srwm.rs:52-73 | `None` without a prior mean or variance; otherwise a stepper whose adaptor uses the given scale (default 1) and the prior's mean and variance |
| SrwmOld.Srwm.NewWithMeanVariance | src/steppers/srwm.rs:84-104 | an adaptor from the given scale, mean and variance, with empty caches |
| SrwmOld.Srwm.SetAdapt | src/steppers/srwm.rs:116-118 | sets only the adaptor's switch |
| SrwmOld.Srwm.GetAdapt | src/steppers/srwm.rs:120-122 | `Enabled` exactly when the adaptor is enabled, `Disabled` exactly when it is not |
| SrwmOld.Srwm.Reset | src/steppers/srwm.rs:124-128 | clears both caches and resets the adaptor |
| SrwmOld.Srwm.StepWithLoglikelihood | src/steppers/srwm.rs:135-181 | result, caches and adaptor are those of `Transition` |
| SrwmOld.Srwm.Step | src/steppers/srwm.rs:130-133 | the same with the cached log-likelihood |
| SrwmOld.Srwm.PriorDraw | src/steppers/srwm.rs:187-189 | through a get-set lens the result holds the prior's draw, and through a lawful lens setting back the old value recovers the input |
| SrwmBuilder.UnscaledBuilderPanics | src/steppers/srwm/builder.rs:62-86 | a stepper built from the prior-derived builders, whose proposal scale is 0, panics at its first step |
| SrwmBuilder.SrwmBuilder.Init | src/steppers/srwm/builder.rs:12-20 | holds the given parameter and adaptor |
| SrwmBuilder.SrwmBuilder.New | src/steppers/srwm/builder.rs:39-43 | adaptor with proposal scale 1, mean 0 and variance 1 |
| SrwmBuilder.SrwmBuilder.InitialScale | src/steppers/srwm/builder.rs:45-53 | a new builder on the same parameter whose adaptor differs only in its scale |
| SrwmBuilder.SrwmBuilder.NewFromPrior | src/steppers/srwm/builder.rs:62-69 | `None` without a prior mean or variance; otherwise those with proposal scale 0 |
| SrwmBuilder.SrwmBuilder.NewWithMeanAndVariance | src/steppers/srwm/builder.rs:78-86 | the given mean and variance with proposal scale 0 |
| SrwmBuilder.SrwmBuilder.ProposalScale | src/steppers/srwm/builder.rs:88-90 | overwrites only the held adaptor's proposal scale |
| SrwmBuilder.SrwmBuilder.Clone | src/steppers/srwm/builder.rs:25-30 | the same parameter and a separate copy of the adaptor |
| SrwmBuilder.SrwmBuilder.Build | src/steppers/srwm/builder.rs:102-108 | a stepper with empty caches and its own copy of the adaptor, so the builder is not shared |
| DiscreteTypes.RangeHoldsZero | src/traits.rs:19-27 | every integer kind's range contains 0 and 1 |
| DiscreteTypes.FromMagnitude | src/steppers/discrete_srwm/stepper.rs:95-96 | the geometric magnitude converts iff it fits the type, else panics |
| DiscreteTypes.SaturatingAdd | src/steppers/discrete_srwm/stepper.rs:100 | stays in range, lies within `[x, x+m]`, and is `x+m` exactly when that fits, else the maximum |
| DiscreteTypes.SaturatingSub | src/steppers/discrete_srwm/stepper.rs:102 | stays in range, lies within `[x−m, x]`, and is `x−m` exactly when that fits, else the minimum |
| DiscreteTypes.Propose | src/steppers/discrete_srwm/stepper.rs:95-103 | panics iff the magnitude does not fit. Otherwise it stays in range, moves at most `mag`, upward for heads and downward for tails |
| DiscreteTypes.ProposalExactInside | src/steppers/discrete_srwm/stepper.rs:99-103 | away from the bounds the proposal is exactly `current ± mag` |
| DiscreteSrwm.Conclude | src/steppers/discrete_srwm/stepper.rs:129-138 | reject returns the model with the current log-likelihood. Accept caches the proposed scores and returns the incoming log-likelihood, panicking when none was passed |
| DiscreteSrwm.Transition | src/steppers/discrete_srwm/stepper.rs:77-139 | scale 0 panics, because the geometric parameter is undefined there, and so does a magnitude the integer type cannot hold; the lemmas below state the other outcomes |
| DiscreteSrwm.AcceptReturnsIncomingLikelihood | src/steppers/discrete_srwm/stepper.rs:130-134 | on accept the returned log-likelihood is the one passed in, while the cache holds the proposal's |
| DiscreteSrwm.AcceptWithoutLikelihoodPanics | src/steppers/discrete_srwm/stepper.rs:133 | an accepted step with no incoming log-likelihood panics |
| DiscreteSrwm.NanPriorAccepted | src/steppers/discrete_srwm/stepper.rs:105-134 | a NaN proposed prior skips the likelihood, is accepted on the NaN ratio, and caches the NaN prior |
| DiscreteSrwm.OutOfSupportRejected | src/steppers/discrete_srwm/stepper.rs:108-137 | a −∞ proposed prior from a finite score is rejected and the caches are kept |
| DiscreteSrwm.DiscreteSrwm.constructor | src/steppers/discrete_srwm/stepper.rs:47-60 | keeps the parameter, likelihood, kind and adaptor; both caches empty |
| DiscreteSrwm.DiscreteSrwm.StepWithLogLikelihood | src/steppers/discrete_srwm/stepper.rs:77-139 | result, caches and adaptor are those of `Transition` |
| DiscreteSrwm.DiscreteSrwm.Step | src/steppers/discrete_srwm/stepper.rs:72-75 | the same with the cached log-likelihood |
| DiscreteSrwm.DiscreteSrwm.AdaptEnable | src/steppers/discrete_srwm/stepper.rs:145-147 | enables the adaptor; the state is `On` |
| DiscreteSrwm.DiscreteSrwm.AdaptDisable | src/steppers/discrete_srwm/stepper.rs:149-151 | disables the adaptor; the state is `Off` |
| DiscreteSrwm.DiscreteSrwm.DrawPrior | src/steppers/discrete_srwm/stepper.rs:141-143 | through a get-set lens the result holds the prior's draw, and through a lawful lens setting back the old value recovers the input |
| DiscreteSrwm.DiscreteSrwm.AdaptState | src/steppers/discrete_srwm/stepper.rs:153-155 | `On` exactly when the adaptor is enabled, `Off` exactly when it is not |
| DiscreteSrwmOld.Transition | src/steppers/discrete_srwm.rs:97-162 | scale 0 and an oversized magnitude panic as in the newer revision; `NanPriorPanics` and `FiniteStep` state the other outcomes |
| DiscreteSrwmOld.NanPriorPanics | src/steppers/discrete_srwm.rs:126-146 | a NaN proposed prior panics here, where the newer revision accepts it |
| DiscreteSrwmOld.FiniteStep | src/steppers/discrete_srwm.rs:126-160 | with finite scores `metropolis_select` does not panic and the step succeeds; the adaptor advances on the log-ratio it carries; accept returns `lens.set(model, proposed)` with the proposal's log-likelihood and caches its scores; reject returns the input model with the current log-likelihood and keeps the caches |
| DiscreteSrwmOld.DiscreteSrwmOld.Init | src/steppers/discrete_srwm.rs:59-74 | keeps the parameter, likelihood, kind and adaptor; caches empty; step 0 |
| DiscreteSrwmOld.DiscreteSrwmOld.New | src/steppers/discrete_srwm.rs:59-74 | a simple adaptor with the given scale (default 1) and interval 100, step 0, caches empty |
| DiscreteSrwmOld.DiscreteSrwmOld.StepWithLogLikelihood | src/steppers/discrete_srwm.rs:97-162 | increments the step counter; result, caches and adaptor are those of `Transition` |
| DiscreteSrwmOld.DiscreteSrwmOld.Step | src/steppers/discrete_srwm.rs:91-95 | the same with the cached log-likelihood |
| DiscreteSrwmOld.DiscreteSrwmOld.SetAdapt | src/steppers/discrete_srwm.rs:164-166 | sets only the adaptor's switch |
| DiscreteSrwmOld.DiscreteSrwmOld.Reset | src/steppers/discrete_srwm.rs:172-176 | clears both caches and resets the adaptor, keeping the step counter |
| DiscreteSrwmOld.DiscreteSrwmOld.Adapt | src/steppers/discrete_srwm.rs:168-170 | `Enabled` exactly when the adaptor is enabled, `Disabled` exactly when it is not |
| DiscreteSrwmOld.DiscreteSrwmOld.PriorDraw | src/steppers/discrete_srwm.rs:182-184 | through a get-set lens the result holds the prior's draw, and through a lawful lens setting back the old value recovers the input |
| DiscreteBuilder.New | src/steppers/discrete_srwm/builder.rs:38-46 | initial scale 1 and interval 100, with the given parameter, likelihood and kind |
| DiscreteBuilder.WithInitialScale | src/steppers/discrete_srwm/builder.rs:49-54 | changes only the initial scale |
| DiscreteBuilder.WithAdaptInterval | src/steppers/discrete_srwm/builder.rs:57-62 | changes only the interval |
| DiscreteBuilder.SettersIndependent | src/steppers/discrete_srwm/builder.rs:49-62 | the two setters commute and each overrides itself |
| DiscreteBuilder.Build | src/steppers/discrete_srwm/builder.rs:74-77 | a fresh stepper with empty caches and a fresh, disabled simple adaptor from the configured scale and interval |
| BinaryGibbs.Range | src/steppers/binary_gibbs_metropolis.rs:48 | `[0, n)` in order |
| BinaryGibbs.PermutationBounded | src/steppers/binary_gibbs_metropolis.rs:79 | every index of a permutation of `[0, n)` is below n |
| BinaryGibbs.ShufflePreservesPermutation | src/steppers/binary_gibbs_metropolis.rs:73 | a shuffle of a permutation of `[0, n)` is one too |
| BinaryGibbs.Visit | src/steppers/binary_gibbs_metropolis.rs:79-96 | a coin at or above `transit_p` changes nothing. Otherwise the bit is flipped and scored: accepted flips keep the bit and the new log p, rejected flips restore the bit and the log p, and an index past the vector panics |
| BinaryGibbs.AbortPersists | src/steppers/binary_gibbs_metropolis.rs:79-96 | once a visit panics the sweep stays panicked |
| BinaryGibbs.SweepFrame | src/steppers/binary_gibbs_metropolis.rs:79-96 | the vector length is kept and bits not visited are unchanged |
| BinaryGibbs.PermutationSweepSucceeds | src/steppers/binary_gibbs_metropolis.rs:79-96 | a sweep over a permutation of the indices never panics |
| BinaryGibbs.NoTransitionNoChange | src/steppers/binary_gibbs_metropolis.rs:81-82 | when no coin falls below `transit_p`, the sweep changes nothing |
| BinaryGibbs.Start | src/steppers/binary_gibbs_metropolis.rs:74-78 | starts from the model's vector and the cached score, else the likelihood |
| BinaryGibbs.BinaryGibbsMetropolis.Init | src/steppers/binary_gibbs_metropolis.rs:36-52 | holds the given fields with no cached score |
| BinaryGibbs.BinaryGibbsMetropolis.New | src/steppers/binary_gibbs_metropolis.rs:36-52 | order `[0, size)` for the initial vector's size, a permutation, with no cached score |
| BinaryGibbs.BinaryGibbsMetropolis.Step | src/steppers/binary_gibbs_metropolis.rs:72-101 | stores the shuffled order, sweeps it from `Start`, returns `lens.set(model, final vector)` and caches the final log p |
| BinaryGibbs.StepSucceeds | src/steppers/binary_gibbs_metropolis.rs:72-101 | from a permutation of a vector's indices, a step never panics and keeps the vector length |
| BinaryGibbs.SweepOnlySetsVector | src/steppers/binary_gibbs_metropolis.rs:83-96 | the sweep's set-in-place calls touch only the bit vector |
| BinaryGibbs.StepResultHoldsFinalVector | src/steppers/binary_gibbs_metropolis.rs:98-100 | the returned model is the input model with the final vector set, and it reads back that vector |
| SteppingAlgs.StepsAdditive | src/stepper_traits.rs:22-29 | a+b steps equal a steps followed by b steps |
| SteppingAlgs.OneStep | src/stepper_traits.rs:22-29 | one step of `multiple_steps` is the stepper's `step` |
| SteppingAlgs.StepsAbortPersists | src/stepper_traits.rs:22-29 | once a step panics the run stays panicked |
| SteppingAlgs.SampledAbortPersists | src/stepper_traits.rs:32-46 | once sampling panics it stays panicked |
| SteppingAlgs.SampleIsThinnedRun | src/stepper_traits.rs:32-46 | sampling panics iff `size·thinning` steps do, with the same cause. Otherwise it returns exactly `size` models, element i being the model after `(i+1)·thinning` steps, and ends where those steps end |
| SteppingAlgs.EmptySample | src/stepper_traits.rs:39-45 | size 0 gives an empty sample and takes no step |
| SteppingAlgs.Stepper.constructor | src/stepper_traits.rs:9-20 | holds the given kernel and state |
| SteppingAlgs.Stepper.Step | src/stepper_traits.rs:10 | one kernel step on the stepper's state |
| SteppingAlgs.Stepper.StepWithLogLikelihood | src/stepper_traits.rs:12-17 | one kernel step with the given log-likelihood |
| SteppingAlgs.Stepper.MultipleSteps | src/stepper_traits.rs:22-29 | the loop's result and final state are those of `steps` successive steps |
| SteppingAlgs.Stepper.Sample | src/stepper_traits.rs:32-46 | the loop's result and final state are those of the thinned sample |
| SteppingAlgs.Stepper.AdaptEnable | src/stepper_traits.rs:49 | the state becomes the kernel's enabled state |
| SteppingAlgs.Stepper.AdaptDisable | src/stepper_traits.rs:51 | the state becomes the kernel's disabled state |
| GroupSteppers.SweepAbortPersists | src/steppers/group/stepper.rs:100-106 | once a member panics the group step stays panicked |
| GroupSteppers.SweepShape | src/steppers/group/stepper.rs:100-106 | one new state per member stepped; none stepped gives the input back; otherwise the log-likelihood is present |
| GroupSteppers.SweepStepsEachMember | src/steppers/group/stepper.rs:100-106 | member j is stepped once, with the model, generator and log-likelihood its predecessor left, which is `Some` after the first member |
| GroupSteppers.SweepPrefix | src/steppers/group/stepper.rs:100-106 | the states of the first j members do not depend on the members after them |
| GroupSteppers.Updated | src/steppers/group/stepper.rs:100-106 | each member keeps its kernel and takes its new state, in list order |
| GroupSteppers.GroupAdaptEnable | src/steppers/group/stepper.rs:117-121 | every member, and only the members, is enabled |
| GroupSteppers.GroupAdaptDisable | src/steppers/group/stepper.rs:123-127 | every member, and only the members, is disabled |
| GroupSteppers.MemberStates | src/steppers/group/stepper.rs:129-135 | the members' adaptation states, in order |
| GroupSteppers.GroupAdaptState | src/steppers/group/stepper.rs:129-135 | empty gives `NotApplicable`; all `On` gives `On`; all `Off` gives `Off`; `On` next to `Off` gives `Mixed` |
| GroupSteppers.EmptyGroupStep | src/steppers/group/stepper.rs:107-108 | an empty group returns its input and panics when no log-likelihood is given |
| GroupSteppers.NonEmptyGroupSteps | src/steppers/group/stepper.rs:94-109 | a non-empty group caches and returns the last member's log-likelihood and holds each member's new state |
| GroupSteppers.GroupStepWithLogLikelihood | src/steppers/group/stepper.rs:94-109 | a successful step caches exactly the log-likelihood it returns and keeps one member per sub-stepper; an empty group panics iff no log-likelihood is supplied |
| GroupSteppers.GroupStep | src/steppers/group/stepper.rs:89-92 | a successful step leaves a cached log-likelihood and one member per sub-stepper; an empty group panics iff nothing is cached |
| GroupSteppers.DrawPriorFold | src/steppers/group/stepper.rs:111-115 | folding over no members changes nothing; over one member it is that member's `draw_prior` |
| GroupSteppers.GroupDrawPrior | src/steppers/group/stepper.rs:111-115 | an empty group returns the generator and the model unchanged; a single member's group is that member's `draw_prior` |
| GroupSteppers.DrawPriorFoldPrefix | src/steppers/group/stepper.rs:111-115 | the fold over the first n members depends on them only |
| GroupSteppers.DrawPriorFoldSplit | src/steppers/group/stepper.rs:111-115 | folding over a ++ b is folding over a, then over b from where a left the generator and the model |
| GroupSteppers.GroupDrawPriorInOrder | src/steppers/group/stepper.rs:111-115 | a group draws from the prior in list order: the draw of a ++ b is the draw of a followed by the draw of b |
| GroupSteppers.GroupKernel | src/steppers/group/stepper.rs:84-136 | the group as a stepper: every successful step caches the log-likelihood it returns, and an empty group's state is `NotApplicable` |
| GroupSteppers.Group.constructor | src/steppers/group/stepper.rs:74-81 | holds the sub-steppers with no cached log-likelihood |
| GroupSteppers.Group.StepWithLogLikelihood | src/steppers/group/stepper.rs:94-109 | the in-place loop over the sub-steppers gives the fold's result and state |
| GroupSteppers.Group.Step | src/steppers/group/stepper.rs:89-92 | the same with the cached log-likelihood |
| GroupSteppers.Group.AdaptEnable | src/steppers/group/stepper.rs:117-121 | the loop enables every member |
| GroupSteppers.Group.AdaptDisable | src/steppers/group/stepper.rs:123-127 | the loop disables every member |
| GroupSteppers.Group.SweepMembers | src/steppers/group/stepper.rs:100-106 | the in-place loop over the sub-steppers equals the fold; on success each member holds its new state, and the cache is untouched |
| GroupSteppers.Group.DrawPrior | src/steppers/group/stepper.rs:111-115 | an empty group draws nothing; a one-member group is that member's `draw_prior` |
| GroupSteppers.Group.AdaptState | src/steppers/group/stepper.rs:129-135 | an empty group is `NotApplicable`; members on and off make it `Mixed` |
| GroupBuilders.Build | src/steppers/group/builder.rs:103-110 | a fresh group with one sub-stepper per builder, in order, and no cached log-likelihood |
| GroupBuilders.BuiltMember | src/steppers/group/builder.rs:103-110 | the built group as a stepper: one member per builder, in order, with no cached log-likelihood |
| GroupOld.StepAllAbortPersists | src/steppers/group.rs:35-45 | once a stepper panics the group step stays panicked |
| GroupOld.StepAllShape | src/steppers/group.rs:35-45 | the same number of steppers; stepper j is stepped once on the model its predecessors left |
| GroupOld.Step | src/steppers/group.rs:35-45 | the loop leaves the shared model and returns the group the fold gives |
| GroupOld.AdaptOn | src/steppers/group.rs:47-52 | maps `adapt_on` over every stepper, preserving length and order |
| GroupOld.AdaptOff | src/steppers/group.rs:54-59 | maps `adapt_off` over every stepper, preserving length and order |
| GroupOld.OffAfterOn | src/steppers/group.rs:47-59 | when each stepper's `adapt_off` overrides `adapt_on`, so does the group's |
| RunnerUtils.ThinnedDrawsAbortPersists | src/runner/utils.rs:45-51 | once a draw panics the run stays panicked |
| RunnerUtils.ThinnedDrawsAreEveryNth | src/runner/utils.rs:45-51 | it panics iff `n·thinning` steps do. Otherwise it keeps exactly n models, element i being the model after `i·thinning + 1` steps, and ends where `n·thinning` steps end |
| RunnerUtils.DrawFromStepperShape | src/runner/utils.rs:4-59 | on success thinning is positive, the output has `n_draws` plus the warm-up length when kept, and the draws after the warm-up part are every t-th state from the first after the adapted warm-up |
| RunnerUtils.ZeroThinningPanics | src/runner/utils.rs:45-51 | thinning 0 panics in `step_by` |
| RunnerUtils.DrawFromStepper | src/runner/utils.rs:4-59 | the loops compute exactly `DrawFromStepperSpec`: prior draw, adapted warm-up, disabled thinned draws, warm-up kept first when asked |
| RunnerUtils.ThinnedDrawLoop | src/runner/utils.rs:45-51 | the draw loop returns `ThinnedDraws`'s models and leaves the stepper where its steps end, or its panic |
| RunnerUtils.ThinningOffsetsDiffer | src/runner/utils.rs:45-51 | on a counting stepper, 2 draws with thinning 2 keep the states 1 and 3, where `sample` keeps 2 and 4 |
| Runners.New | src/runner/mod.rs:109-119 | draws 2000, warm-up 1000, thinning 1, one chain, drawn from the prior, warm-up discarded |
| Runners.Draws | src/runner/mod.rs:122-127 | changes only the draw count |
| Runners.Warmup | src/runner/mod.rs:130-135 | changes only the warm-up length |
| Runners.Chains | src/runner/mod.rs:138-144 | panics iff 0, otherwise changes only the chain count |
| Runners.Thinning | src/runner/mod.rs:147-153 | panics iff 0, otherwise changes only the thinning |
| Runners.KeepWarmUp | src/runner/mod.rs:156-161 | sets only the keep flag |
| Runners.DiscardWarmUp | src/runner/mod.rs:164-169 | clears only the keep flag |
| Runners.InitialModel | src/runner/mod.rs:172-177 | sets only the initialisation to the given model |
| Runners.KeepThenDiscard | src/runner/mod.rs:156-169 | the last of the two flag setters wins |
| Runners.Seeds | src/runner/mod.rs:181-186 | exactly one seed per chain, drawn in order from the master generator |
| Runners.NoWarmUpPanics | src/runner/mod.rs:210 | a chain with no warm-up panics at `last().unwrap()` |
| Runners.ChainShape | src/runner/mod.rs:190-221 | needs warm-up ≥ 1. The chain holds `draws` models, plus the warm-up when kept, and its draws are the thinned run of the disabled stepper, started from the prior draw or the given model after the adapted warm-up |
| Runners.RunChainsAbortPersists | src/runner/mod.rs:188-223 | once a chain panics the run stays panicked |
| Runners.RunChainsShape | src/runner/mod.rs:188-223 | one inner vector per seed, the i-th being chain i's output |
| Runners.RunChain | src/runner/mod.rs:190-221 | the per-chain method body computes `Chain` |
| Runners.Run | src/runner/mod.rs:180-223 | seeds first, then every chain in order, with the rest of the master generator returned |
| OuterProducts.OuterProduct | src/utils/mod.rs:17-29 | `len(left)` rows of `len(right)` entries |
| OuterProducts.OuterSelfSymmetric | src/utils/mod.rs:23 | `outer(v, v)` is symmetric |
| OuterProducts.Outer | src/utils/mod.rs:17-29 | the double loop fills every cell of a fresh matrix with `left[i]·right[j]` |
| OuterProducts.FillRow | src/utils/mod.rs:21-25 | the inner loop writes `left[i]·right[j]` into every cell of row i and changes no other row |
| MeanAndVariances.Default | src/utils/mean_and_variance.rs:14-22 | mean 0, variance 0, count 0 |
| MeanAndVariances.Include | src/utils/mean_and_variance.rs:38-43 | adds one to the count and the value to the running total |
| MeanAndVariances.UpdateCount | src/utils/mean_and_variance.rs:35-48 | the count grows by the number of values; no values leaves the accumulator as it was |
| MeanAndVariances.UpdateTotal | src/utils/mean_and_variance.rs:35-48 | mean·count grows by the sum of the values |
| MeanAndVariances.FromValuesMeanIsAverage | src/utils/mean_and_variance.rs:51-53 | over reals the mean of `from_values` is the arithmetic average |
| MeanAndVariances.VarianceIsLastTermOnly | src/utils/mean_and_variance.rs:40-41 | the variance is only the last value's `(x − m_old)(x − m_new)` |
| MeanAndVariances.UpdateAppend | src/utils/mean_and_variance.rs:35-48 | updating with `a ++ b` equals updating with a, then with b |
| MultipleTries.MultipleTries | src/utils.rs:8-19 | true iff some try below n succeeds. It calls at most n times, in order, stops right after the first success with none before it, and makes all n calls when none succeeds |

## Left out

- Randomness. Gaussian, multivariate Gaussian and geometric draws, `rng.gen`, the uniform draw and `shuffle` are inputs. The prior's `ln_f` and draw, and the user's likelihood, are function values.
- Floating point. Finite values are exact reals, with no rounding or overflow. `exp` and `powf` are parameters with the two facts the proofs need. The `is_normal` half of the global adaptor's assert is modelled as "finite and positive".
- DiscreteSrwm.Transition: the geometric proposal's parameter formula is left out; it panics only where the formula divides by zero, at scale 0.
- The vector adaptor's update rule for covariance matrices is not part of this model; the vector adaptor records the decisions it receives. Positive-definiteness of the covariance is reduced to a shape check.
- `NearestSPD` and the matrix decompositions it needs.
- Concurrency. The per-chain rayon fan-out is a sequential map over the seeds, so when several chains panic, the first one in order is the one reported. `runner_builder.rs`, `runner.rs`, `src/runner.rs` and `result.rs` are not part of this model.
- Diagnostics, the Geweke harness, `write_samples_to_file`, logging and `multiple_tries`'s printing.
- `kameleon.rs` and `binary_metropolis.rs`; the mocks.
- The state of a stepper after a panic: a panicking method only reports its cause.
- Integer width of `usize` counters, which are unbounded.
- Heterogeneous sub-steppers. A group's members share one state type. A builder in a `GroupBuilder`, and the `StepperBuilder` a runner holds, is the stepper it would build.
- The concrete steppers are classes with their own method signatures. They are not packaged as `Kernel` values, so the group and runner theorems are stated for any kernel.
- The older `SteppingAlg` API (internal generator, `prior_draw`, `set_adapt`) is modelled per stepper. The older group threads the generator as a value.
- SrwmOld.Transition: `srwm.rs` hands the older `util::MetroplisUpdate` to an adaptor whose `update` takes the `metropolis_hastings_utils` type; the model converts between the two with `AsAdaptorUpdate`.
- SrwmBuilder.SrwmBuilder.Build: `build` calls a constructor arity that no revision of `SRWM::new` has; the model hands the copied adaptor to the older stepper.
- `MeanAndVariance::new` (src/utils/mean_and_variance.rs:26) is the datatype's own constructor, and `std` (:56) is a square root, which the exact-real model of floating point does not provide.
- The `Parameter` prior is independent of the model; the newer revisions' `prior(&model)` is the same prior.

## Divergences between revisions, and questionable behaviour

These are modelled as written, and each has a lemma in the table.

1. **NaN log-ratio.** `mh_accept_reject` accepts a NaN log-ratio, because `min(NaN, 0)` is 0 (`MhAcceptReject.MetropolisProposal`). In the steppers that use it, a current score of −∞ with an out-of-support proposal therefore accepts a proposal with no log-likelihood and panics on the `unwrap` (`SrwmScalar.BothOutOfSupportPanics`).
2. **NaN likelihood.** The alternate SRWM revision does not map a NaN likelihood to −∞, so it accepts and caches NaN (`SrwmAlt.NanLikelihoodAccepted`).
3. **Unclipped ratio in `srwm.rs`.** The older SRWM passes the unclipped Δ to the global adaptor. Entering the support from a −∞ score gives +∞, which trips the adaptor's assert while adaptation is on (`SrwmOld.EnteringSupportPanicsWhileAdapting`). Staying outside the support from a −∞ score gives NaN, which the older decision rejects but still passes on, and the assert fails again (`SrwmOld.BothOutOfSupportPanicsWhileAdapting`).
4. **The newer discrete stepper.**
   - On accept it returns the incoming log-likelihood rather than the proposal's, and `step` of a fresh stepper passes none, so its first acceptance panics (`DiscreteSrwm.AcceptReturnsIncomingLikelihood`, `DiscreteSrwm.AcceptWithoutLikelihoodPanics`).
   - It accepts a NaN prior, where the older revision panics (`DiscreteSrwm.NanPriorAccepted`, `DiscreteSrwmOld.NanPriorPanics`).
5. **Scale 0 from the builder.** `new_from_prior` and `new_with_mean_and_variance` leave the proposal scale at 0, so a stepper built from them panics until a positive scale is set (`SrwmBuilder.UnscaledBuilderPanics`).
6. **Thinning offsets.** `draw_from_stepper` keeps the states after steps 1, t+1, 2t+1, …, while `SteppingAlg::sample` keeps those after t, 2t, … (`RunnerUtils.ThinningOffsetsDiffer`).
7. **Empty warm-up.** `Runner::run` needs at least one warm-up step (`Runners.NoWarmUpPanics`).
8. **Band factors.** The simple adaptor's bands are not monotone: a mean acceptance below 0.05 shrinks the scale by 0.5, less than the 0.2 applied between 0.05 and 0.2 (`AdaptorSimple.BandFactorNotMonotone`).
