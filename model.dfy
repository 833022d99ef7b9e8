/** The six-parameter Van Genuchten model of `src/model.rs`: the ordered
    validation of `(a, n, k_sat, k_max, theta_sat, theta_res)`, the two
    getters that do not depend on the retention curve, the default parameters
    and the derived `PartialEq`. */
module Model {
  import opened Float64
  import opened Validation

  /** The errors `VanGenuchtenModel::new` returns, one per check. */
  datatype InvalidModelError =
    BadAlpha | BadN | BadKSat | BadKMax | BadThetaSat | BadThetaRes | ThetaSatResDisagreement

  /** The model, its six fields exactly as they were passed in. */
  datatype VanGenuchtenModel =
    VanGenuchtenModel(a: F64, n: F64, kSat: F64, kMax: F64, thetaSat: F64, thetaRes: F64)

  /** The seven checks of the constructor, in the order they are tested. A
      check lets the input through exactly when its parameter is NaN or
      inside its range. */
  function Checks(a: F64, n: F64, kSat: F64, kMax: F64, thetaSat: F64, thetaRes: F64)
    : (cs: seq<Check<InvalidModelError>>)
    ensures |cs| == 7
    ensures cs[0].error == BadAlpha && (!cs[0].fails <==> IsNaN(a) || Gt(a, Zero))
    ensures cs[1].error == BadN && (!cs[1].fails <==> IsNaN(n) || Gt(n, Zero))
    ensures cs[2].error == BadKSat && (!cs[2].fails <==> IsNaN(kSat) || Gt(kSat, Zero))
    ensures cs[3].error == BadKMax && (!cs[3].fails <==> IsNaN(kMax) || Gt(kMax, Zero))
    ensures cs[4].error == BadThetaSat
         && (!cs[4].fails <==> IsNaN(thetaSat) || (Gt(thetaSat, Zero) && Lt(thetaSat, One)))
    ensures cs[5].error == BadThetaRes
         && (!cs[5].fails <==> IsNaN(thetaRes) || (Gt(thetaRes, Zero) && Lt(thetaRes, One)))
    ensures cs[6].error == ThetaSatResDisagreement
         && (!cs[6].fails <==> IsNaN(thetaRes) || IsNaN(thetaSat) || Lt(thetaRes, thetaSat))
    ensures AllPass(cs) <==> Acceptable(a, n, kSat, kMax, thetaSat, thetaRes)
  {
    [ Check(Le(a, Zero), BadAlpha),
      Check(Le(n, Zero), BadN),
      Check(Le(kSat, Zero), BadKSat),
      Check(Le(kMax, Zero), BadKMax),
      Check(Le(thetaSat, Zero) || Ge(thetaSat, One), BadThetaSat),
      Check(Le(thetaRes, Zero) || Ge(thetaRes, One), BadThetaRes),
      Check(Ge(thetaRes, thetaSat), ThetaSatResDisagreement) ]
  }

  /** `VanGenuchtenModel::new`: an `if / else if` chain; the first check that
      fires picks the error, and when none fires all six arguments are stored
      unchanged. */
  function New(a: F64, n: F64, kSat: F64, kMax: F64, thetaSat: F64, thetaRes: F64)
    : (r: Result<VanGenuchtenModel, InvalidModelError>)
    ensures r.Ok? ==> r.value == VanGenuchtenModel(a, n, kSat, kMax, thetaSat, thetaRes)
  {
    if Le(a, Zero) then Err(BadAlpha)
    else if Le(n, Zero) then Err(BadN)
    else if Le(kSat, Zero) then Err(BadKSat)
    else if Le(kMax, Zero) then Err(BadKMax)
    else if Le(thetaSat, Zero) || Ge(thetaSat, One) then Err(BadThetaSat)
    else if Le(thetaRes, Zero) || Ge(thetaRes, One) then Err(BadThetaRes)
    else if Ge(thetaRes, thetaSat) then Err(ThetaSatResDisagreement)
    else Ok(VanGenuchtenModel(a, n, kSat, kMax, thetaSat, thetaRes))
  }

  /** `get_water_potential`: a placeholder that ignores the model. */
  function WaterPotential(m: VanGenuchtenModel): (psi: F64)
  {
    Finite(-1.0)
  }

  /** `get_hydraulic_conductivity`: the maximum conductivity. */
  function HydraulicConductivity(m: VanGenuchtenModel): (k: F64)
  {
    m.kMax
  }

  /** `Default::default`: the reference sand parameters, as decimal literals
      (the doubles nearest them keep the same order relative to 0, 1 and each
      other). */
  function Default(): (m: VanGenuchtenModel)
    ensures Lt(m.thetaRes, m.thetaSat)
  {
    VanGenuchtenModel(Finite(1479.5945), Finite(2.68), Finite(29.7), Finite(30305.88),
                      Finite(0.43), Finite(0.045))
  }

  /** The derived `PartialEq` of the struct: field by field, with `f64`
      equality. */
  predicate Same(m1: VanGenuchtenModel, m2: VanGenuchtenModel) {
    Eq(m1.a, m2.a) && Eq(m1.n, m2.n) && Eq(m1.kSat, m2.kSat) && Eq(m1.kMax, m2.kMax)
    && Eq(m1.thetaSat, m2.thetaSat) && Eq(m1.thetaRes, m2.thetaRes)
  }

  /** `PartialEq` on `Result<VanGenuchtenModel, InvalidModelError>`: the
      models are compared with `Same`, the errors by variant. */
  predicate ResultSame(r1: Result<VanGenuchtenModel, InvalidModelError>,
                       r2: Result<VanGenuchtenModel, InvalidModelError>) {
    match (r1, r2)
    case (Ok(m1), Ok(m2)) => Same(m1, m2)
    case (Err(e1), Err(e2)) => e1 == e2
    case _ => false
  }

  /** Some field of the model is NaN. */
  predicate HasNaN(m: VanGenuchtenModel) {
    IsNaN(m.a) || IsNaN(m.n) || IsNaN(m.kSat) || IsNaN(m.kMax) || IsNaN(m.thetaSat) || IsNaN(m.thetaRes)
  }

  /** Acceptance condition, per parameter: NaN (which slips through every
      `<=`/`>=` guard) or strictly inside its range. */
  predicate Acceptable(a: F64, n: F64, kSat: F64, kMax: F64, thetaSat: F64, thetaRes: F64) {
    (IsNaN(a) || Gt(a, Zero))
    && (IsNaN(n) || Gt(n, Zero))
    && (IsNaN(kSat) || Gt(kSat, Zero))
    && (IsNaN(kMax) || Gt(kMax, Zero))
    && (IsNaN(thetaSat) || (Gt(thetaSat, Zero) && Lt(thetaSat, One)))
    && (IsNaN(thetaRes) || (Gt(thetaRes, Zero) && Lt(thetaRes, One)))
    && (IsNaN(thetaRes) || IsNaN(thetaSat) || Lt(thetaRes, thetaSat))
  }

  /** The chain in `new` is the ordered check list: its outcome is the first
      failing check's error, or the model when all seven pass. */
  lemma NewFollowsCheckOrder(a: F64, n: F64, kSat: F64, kMax: F64, thetaSat: F64, thetaRes: F64)
    ensures New(a, n, kSat, kMax, thetaSat, thetaRes)
         == Decide(Checks(a, n, kSat, kMax, thetaSat, thetaRes),
                   VanGenuchtenModel(a, n, kSat, kMax, thetaSat, thetaRes))
  {
  }

  /** The error `new` reports is that of the first failing check: check `k`
      decides exactly when checks `0..k-1` pass and check `k` fails. */
  lemma ErrorIsFirstFailingCheck(a: F64, n: F64, kSat: F64, kMax: F64, thetaSat: F64, thetaRes: F64, k: nat)
    requires k < 7
    ensures var cs := Checks(a, n, kSat, kMax, thetaSat, thetaRes);
      New(a, n, kSat, kMax, thetaSat, thetaRes) == Err(cs[k].error)
      <==> (cs[k].fails && forall j :: 0 <= j < k ==> !cs[j].fails)
  {
  }

  /** `new` succeeds exactly when every parameter is acceptable. */
  lemma NewOkIff(a: F64, n: F64, kSat: F64, kMax: F64, thetaSat: F64, thetaRes: F64)
    ensures New(a, n, kSat, kMax, thetaSat, thetaRes).Ok? <==> Acceptable(a, n, kSat, kMax, thetaSat, thetaRes)
  {
  }

  /** For finite arguments: `new` succeeds exactly when `a`, `n`, `k_sat` and
      `k_max` are positive, both water contents lie in (0, 1), and
      `theta_res < theta_sat`. */
  lemma NewOkIffFinite(a: real, n: real, kSat: real, kMax: real, thetaSat: real, thetaRes: real)
    ensures New(Finite(a), Finite(n), Finite(kSat), Finite(kMax), Finite(thetaSat), Finite(thetaRes)).Ok?
        <==> (a > 0.0 && n > 0.0 && kSat > 0.0 && kMax > 0.0
              && 0.0 < thetaSat < 1.0 && 0.0 < thetaRes < 1.0 && thetaRes < thetaSat)
  {
  }

  /** `ThetaSatResDisagreement` is only reported for two genuine water
      contents, both strictly inside (0, 1), after `a`, `n`, `k_sat` and
      `k_max` have all passed. */
  lemma DisagreementOnlyInRange(a: F64, n: F64, kSat: F64, kMax: F64, thetaSat: F64, thetaRes: F64)
    requires New(a, n, kSat, kMax, thetaSat, thetaRes) == Err(ThetaSatResDisagreement)
    ensures Lt(Zero, thetaSat) && Lt(thetaSat, One) && Lt(Zero, thetaRes) && Lt(thetaRes, One)
    ensures Le(thetaSat, thetaRes)
    ensures !Le(a, Zero) && !Le(n, Zero) && !Le(kSat, Zero) && !Le(kMax, Zero)
  {
  }

  /** The boundary values are rejected, each with its own error, for every
      input whose earlier checks pass (NaN included). */
  lemma BoundariesRejected(a: F64, n: F64, kSat: F64, kMax: F64, thetaSat: F64, thetaRes: F64)
    ensures New(Zero, n, kSat, kMax, thetaSat, thetaRes) == Err(BadAlpha)
    ensures !Le(a, Zero) ==> New(a, Zero, kSat, kMax, thetaSat, thetaRes) == Err(BadN)
    ensures !Le(a, Zero) && !Le(n, Zero) ==> New(a, n, Zero, kMax, thetaSat, thetaRes) == Err(BadKSat)
    ensures !Le(a, Zero) && !Le(n, Zero) && !Le(kSat, Zero)
        ==> New(a, n, kSat, Zero, thetaSat, thetaRes) == Err(BadKMax)
    ensures !Le(a, Zero) && !Le(n, Zero) && !Le(kSat, Zero) && !Le(kMax, Zero)
        ==> (New(a, n, kSat, kMax, Zero, thetaRes) == Err(BadThetaSat)
             && New(a, n, kSat, kMax, One, thetaRes) == Err(BadThetaSat))
    ensures !Le(a, Zero) && !Le(n, Zero) && !Le(kSat, Zero) && !Le(kMax, Zero)
            && !(Le(thetaSat, Zero) || Ge(thetaSat, One))
        ==> (New(a, n, kSat, kMax, thetaSat, Zero) == Err(BadThetaRes)
             && New(a, n, kSat, kMax, thetaSat, One) == Err(BadThetaRes))
    ensures !Le(a, Zero) && !Le(n, Zero) && !Le(kSat, Zero) && !Le(kMax, Zero)
            && Lt(Zero, thetaSat) && Lt(thetaSat, One)
        ==> New(a, n, kSat, kMax, thetaSat, thetaSat) == Err(ThetaSatResDisagreement)
  {
  }

  /** Only `n <= 0` is rejected: with every other argument acceptable, any
      `n` in (0, 1] is accepted even though the retention curve needs `n > 1`. */
  lemma SmallNAccepted(a: F64, n: real, kSat: F64, kMax: F64, thetaSat: real, thetaRes: real)
    requires 0.0 < n <= 1.0
    requires Gt(a, Zero) && Gt(kSat, Zero) && Gt(kMax, Zero)
    requires 0.0 < thetaRes < thetaSat < 1.0
    ensures New(a, Finite(n), kSat, kMax, Finite(thetaSat), Finite(thetaRes)).Ok?
  {
  }

  /** `get_water_potential` is the same negative constant for every model. */
  lemma WaterPotentialConstant(m1: VanGenuchtenModel, m2: VanGenuchtenModel)
    ensures WaterPotential(m1) == WaterPotential(m2)
    ensures Lt(WaterPotential(m1), Zero) && Eq(WaterPotential(m1), Finite(-1.0))
  {
  }

  /** `get_hydraulic_conductivity` of a model built by `new` is the `k_max`
      passed in, and so is positive unless that `k_max` was NaN. */
  lemma ConductivityOfNewModel(a: F64, n: F64, kSat: F64, kMax: F64, thetaSat: F64, thetaRes: F64)
    requires New(a, n, kSat, kMax, thetaSat, thetaRes).Ok?
    ensures HydraulicConductivity(New(a, n, kSat, kMax, thetaSat, thetaRes).value) == kMax
    ensures Gt(kMax, Zero) || IsNaN(kMax)
    ensures !IsNaN(kMax) ==> Gt(HydraulicConductivity(New(a, n, kSat, kMax, thetaSat, thetaRes).value), Zero)
  {
  }

  /** The derived equality is structural equality for models without NaN,
      and a model holding NaN is not even equal to itself. */
  lemma SameIsEquality(m1: VanGenuchtenModel, m2: VanGenuchtenModel)
    ensures Same(m1, m2) <==> (m1 == m2 && !HasNaN(m1))
    ensures HasNaN(m1) ==> !Same(m1, m1)
  {
  }

  /** The default parameters pass every check: `new` on them is `Ok` of the
      default model, under Dafny's equality and under the derived `PartialEq`. */
  lemma DefaultIsValid()
    ensures Acceptable(Default().a, Default().n, Default().kSat, Default().kMax,
                       Default().thetaSat, Default().thetaRes)
    ensures New(Finite(1479.5945), Finite(2.68), Finite(29.7), Finite(30305.88), Finite(0.43), Finite(0.045))
         == Ok(Default())
    ensures ResultSame(New(Finite(1479.5945), Finite(2.68), Finite(29.7), Finite(30305.88), Finite(0.43), Finite(0.045)),
                       Ok(Default()))
  {
  }
}
