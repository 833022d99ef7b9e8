# Van Genuchten model parameter validation in Dafny

This project models the construction-time parameter validation of the
soil-hydraulics crate's two `VanGenuchtenModel` structs:

- `src/models/vg.rs`: the four-parameter retention model. `new(a, n,
  theta_sat, theta_res)` checks three condition groups in a fixed order and
  reports `BadNegativeParameter`, `ParameterOutOfBounds` or
  `ThetaDisagreement`. Its `Default` gives the reference sand parameters.
- `src/model.rs`: the six-parameter model, which adds `k_sat` and `k_max`.
  Its `new` runs an `if / else if` chain of seven checks, and the first check
  that fails names the error. The module also covers the two getters that do
  not evaluate the retention curve, the `Default` instance and the derived
  `PartialEq`.

Both constructors are pure, so they are modelled as datatypes, functions and
lemmas (modules `VgModel` and `Model`). The validation order has an
independent reference definition in module `Validation`. There, a validator
is a list of checks, each pairing a guard with its error, and `Decide`
returns the error of the first guard that fires. Both constructors are proved
equal to `Decide` over their own check lists.

Doubles are modelled by `Float64.F64 = Finite(r) | PosInf | NegInf | NaN`.
Its `<`, `<=`, `>=` and `>` follow IEEE 754, so every comparison with NaN is
false. The guards only compare against `0.0`, `1.0` and each other, so these
four comparisons are all the arithmetic the validators need. Two consequences
of the code as written are proved rather than hidden:

- NaN passes every guard of both constructors. `VgModel.NonFiniteAccepted`
  shows an all-NaN model is accepted, and `a = +inf` is accepted too.
- `get_hydraulic_conductivity` of a model built by `new` is positive unless
  `k_max` was NaN (`Model.ConductivityOfNewModel`).

Where the source's own text and its code disagree, the model follows the code:

- The message of `InvalidParam::BadVgN` (src/errors.rs:8) says `n` must be
  greater than one. Both constructors only reject `n <= 0`
  (`VgModel.SmallNAccepted`, `Model.SmallNAccepted`).
- The message of `InvalidParam::BadVgTheta` (src/errors.rs:10) describes water
  contents that are above zero, at most one and not subnormal. The
  `RestrictedParameter` trait (src/traits.rs:8-10) declares a per-parameter
  `is_valid` check, but nothing implements it. The constructors perform only
  the `<=`/`>=` comparisons modelled here: there is no subnormal check, and a
  water content of exactly 1 is rejected.
- vg.rs puts no range on `theta_res` beyond `theta_res < theta_sat`. model.rs
  additionally requires `0 < theta_res < 1`.

## Model

| member | source | states |
|---|---|---|
| Float64.NotLeIsGt | src/models/vg.rs:24-26 | a general `f64` fact used by the guards of these lines: `x <= y` fails exactly when `y < x` or either side is NaN |
| Float64.LeExcludesNaN | src/models/vg.rs:26 | a general `f64` fact used by the guard of this line: a `<=`/`>=` comparison that holds has no NaN operand |
| Validation.FirstFailingIndex | src/model.rs:16-30 | the index of the first failing check: every earlier check passes, and the index is either a failing check or the end of the list |
| Validation.Decide | src/model.rs:16-32 | running checks in order gives `Ok` exactly when every check passes, and then `Ok` holds the accepted value |
| Validation.FirstFailingIndexUnique | src/model.rs:16-29 | the first failing check is unique: any position whose predecessors pass and which fails is it |
| Validation.DecideAt | src/model.rs:16-29 | if every check before `k` passes and check `k` fails, the outcome is check `k`'s error, whatever later checks say |
| VgModel.Checks | src/models/vg.rs:23-30 | the three groups in tested order with their errors; a group passes exactly when each of its parameters is NaN or strictly inside its range, so all pass exactly when the arguments are acceptable |
| VgModel.New | src/models/vg.rs:17-38 | on success the model holds `a`, `n`, `theta_sat`, `theta_res` unchanged |
| VgModel.Default | src/models/vg.rs:53-61 | the default residual content is below the saturated content |
| VgModel.NewFollowsCheckOrder | src/models/vg.rs:23-37 | the tuple `match` equals the ordered check list: first true group wins, otherwise `Ok` of the arguments |
| VgModel.NewOkIff | src/models/vg.rs:23-37 | `new` succeeds iff each of `a`, `n` is NaN or > 0, `theta_sat` is NaN or in (0, 1), and `theta_res < theta_sat` or one of them is NaN |
| VgModel.NewOkIffFinite | src/models/vg.rs:23-37 | for finite inputs, `new` succeeds iff `a > 0`, `n > 0`, `0 < theta_sat < 1` and `theta_res < theta_sat` |
| VgModel.BadNegativeParameterFirst | src/models/vg.rs:24-28 | `a <= 0` or `n <= 0` yields `BadNegativeParameter` whatever the water contents |
| VgModel.OutOfBoundsBeforeDisagreement | src/models/vg.rs:25-29 | with `a`, `n` passing, a `theta_sat` outside (0, 1) yields `ParameterOutOfBounds` even if `theta_res >= theta_sat` |
| VgModel.ThetaDisagreementIff | src/models/vg.rs:24-30 | `ThetaDisagreement` is returned iff the first two groups pass and `theta_res >= theta_sat`, which forces `theta_sat` into (0, 1) |
| VgModel.ThetaResOnlyBoundedByThetaSat | src/models/vg.rs:23-27 | with valid `a`, `n`, `theta_sat`, any finite `theta_res` below `theta_sat`, negatives included, is accepted |
| VgModel.BoundariesRejected | src/models/vg.rs:24-30 | for every input whose earlier groups pass, NaN included, `a = 0`, `n = 0`, `theta_sat = 0`, `theta_sat = 1` and `theta_res = theta_sat` are each rejected with their group's error |
| VgModel.NonFiniteAccepted | src/models/vg.rs:23-36 | an all-NaN model is accepted and stored; `a = +inf` is accepted exactly when `a = 1` would be |
| VgModel.SmallNAccepted | src/models/vg.rs:24 | with every other argument acceptable, any `n` in (0, 1] is accepted, because only `n <= 0` is rejected |
| VgModel.DefaultIsValid | src/models/vg.rs:53-61 | the default parameters satisfy every condition, and `new` on them is `Ok(default())` |
| Model.Checks | src/model.rs:16-29 | the seven checks in tested order with their errors; a check passes exactly when its parameter is NaN or strictly inside its range, so all pass exactly when the arguments are acceptable |
| Model.New | src/model.rs:15-33 | on success all six arguments are stored unchanged |
| Model.Default | src/model.rs:56-59 | the default residual content is below the saturated content |
| Model.NewFollowsCheckOrder | src/model.rs:15-33 | the `if / else if` chain equals the ordered check list: the first failing check decides, otherwise `Ok` of the arguments |
| Model.ErrorIsFirstFailingCheck | src/model.rs:16-29 | the error of check `k` is returned iff check `k` fails and every earlier check passes |
| Model.NewOkIff | src/model.rs:15-32 | `new` succeeds iff each parameter is NaN or strictly inside its range and `theta_res < theta_sat` unless one of them is NaN |
| Model.NewOkIffFinite | src/model.rs:15-32 | for finite inputs, `new` succeeds iff `a`, `n`, `k_sat`, `k_max` > 0, both contents are in (0, 1) and `theta_res < theta_sat` |
| Model.DisagreementOnlyInRange | src/model.rs:16-29 | `ThetaSatResDisagreement` implies both contents lie strictly in (0, 1), `theta_sat <= theta_res`, and all a/n/k checks passed |
| Model.BoundariesRejected | src/model.rs:16-29 | for every input whose earlier checks pass, NaN included, each boundary value (0 for `a`, `n`, `k_sat`, `k_max`, `theta_sat`, `theta_res`; 1 for the contents; equal contents) gets its own error |
| Model.SmallNAccepted | src/model.rs:18 | with every other argument acceptable, any `n` in (0, 1] is accepted, because only `n <= 0` is rejected |
| Model.WaterPotentialConstant | src/model.rs:47-49 | `get_water_potential` returns the same negative value, -1.0, for every model |
| Model.ConductivityOfNewModel | src/model.rs:51-53 | the conductivity of a model built by `new` is the `k_max` passed in, positive unless that `k_max` is NaN |
| Model.SameIsEquality | src/model.rs:4 | the derived `PartialEq` holds iff the models are identical and hold no NaN; a model holding NaN is not equal to itself |
| Model.DefaultIsValid | src/model.rs:56-59 | the defaults satisfy every check, and `new(1479.5945, 2.68, 29.7, 30305.88, 0.43, 0.045) == Ok(default())`, both structurally and under `PartialEq` |

The getters `Model.WaterPotential` (src/model.rs:47-49) and
`Model.HydraulicConductivity` (src/model.rs:51-53) are modelled as functions
without a contract of their own; what they return is stated by
`Model.WaterPotentialConstant` and `Model.ConductivityOfNewModel`.

## Left out

- `get_water_content` (src/models/vg.rs:40-43, src/model.rs:35-45) and the four-parameter `get_water_potential` (src/models/vg.rs:45-50) are left out. They are `powf`/`pow` computations with real exponents, and floating-point powers have no faithful model in Dafny.
- src/models/vgm.rs is not part of this model because the whole file is commented out.
- src/errors.rs is not part of this model. Its enums (`InvalidParam`, `InvalidSoilModel`) are not returned by either constructor and carry only message text. The constructors' error enums are modelled from their uses.
- src/lib.rs is not part of this model: it holds build configuration (crate attributes, feature guards) and module declarations.
- src/traits.rs is not part of this model: it declares traits with no implementations.
- The genericity over `num_traits::Float` and the choice between `libm` and std math are not modelled. The code under model uses `f64` throughout.
- Signed zero is not modelled: `-0.0` and `0.0` are both `Finite(0.0)`. They compare equal, so every guard treats them alike. Only a stored `theta_res = -0.0` in vg.rs loses its sign bit.
- Rounding to the nearest double is not modelled. `Finite(r)` admits any real, and the default literals are kept as decimals. The guards only order values against 0, 1 and each other, and rounding preserves that order for these literals.
- The derived `Debug` of the six-parameter struct is not modelled, since it only formats text.
