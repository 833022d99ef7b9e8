/** The four-parameter Van Genuchten retention model of `src/models/vg.rs`:
    the construction-time validation of `(a, n, theta_sat, theta_res)` and the
    reference default parameters. */
module VgModel {
  import opened Float64
  import opened Validation

  /** The errors `VanGenuchtenModel::new` returns. */
  datatype InvalidVGModelError = BadNegativeParameter | ParameterOutOfBounds | ThetaDisagreement

  /** The model: alpha `a`, the pore-size parameter `n`, the saturated and the
      residual water content, exactly as they were passed in. */
  datatype VanGenuchtenModel = VanGenuchtenModel(a: F64, n: F64, thetaSat: F64, thetaRes: F64)

  /** The three condition groups of the constructor, in the order they are
      tested: a non-positive `a` or `n`, a `theta_sat` outside (0, 1), and a
      `theta_res` not below `theta_sat`. A group lets the input through
      exactly when each of its parameters is NaN or inside its range. */
  function Checks(a: F64, n: F64, thetaSat: F64, thetaRes: F64): (cs: seq<Check<InvalidVGModelError>>)
    ensures |cs| == 3
    ensures cs[0].error == BadNegativeParameter
         && (!cs[0].fails <==> (IsNaN(a) || Gt(a, Zero)) && (IsNaN(n) || Gt(n, Zero)))
    ensures cs[1].error == ParameterOutOfBounds
         && (!cs[1].fails <==> IsNaN(thetaSat) || (Gt(thetaSat, Zero) && Lt(thetaSat, One)))
    ensures cs[2].error == ThetaDisagreement
         && (!cs[2].fails <==> IsNaN(thetaRes) || IsNaN(thetaSat) || Lt(thetaRes, thetaSat))
    ensures AllPass(cs) <==> Acceptable(a, n, thetaSat, thetaRes)
  {
    [ Check(Le(a, Zero) || Le(n, Zero), BadNegativeParameter),
      Check(Le(thetaSat, Zero) || Ge(thetaSat, One), ParameterOutOfBounds),
      Check(Ge(thetaRes, thetaSat), ThetaDisagreement) ]
  }

  /** `VanGenuchtenModel::new`: the first condition group that holds picks the
      error; when none holds, the arguments are stored unchanged. */
  function New(a: F64, n: F64, thetaSat: F64, thetaRes: F64): (r: Result<VanGenuchtenModel, InvalidVGModelError>)
    ensures r.Ok? ==> r.value == VanGenuchtenModel(a, n, thetaSat, thetaRes)
  {
    match (Le(a, Zero) || Le(n, Zero), Le(thetaSat, Zero) || Ge(thetaSat, One), Ge(thetaRes, thetaSat))
    case (true, _, _) => Err(BadNegativeParameter)
    case (_, true, _) => Err(ParameterOutOfBounds)
    case (_, _, true) => Err(ThetaDisagreement)
    case _ => Ok(VanGenuchtenModel(a, n, thetaSat, thetaRes))
  }

  /** `Default::default`: the reference sand parameters. The field values are
      the decimal literals of the source; the doubles nearest them keep the
      same order relative to 0, 1 and each other. */
  function Default(): (m: VanGenuchtenModel)
    ensures Lt(m.thetaRes, m.thetaSat)
  {
    VanGenuchtenModel(Finite(1479.5945), Finite(2.68), Finite(0.43), Finite(0.045))
  }

  /** Acceptance condition, stated per parameter: each parameter is either
      NaN (which slips through every `<=`/`>=` guard) or strictly inside its
      range. */
  predicate Acceptable(a: F64, n: F64, thetaSat: F64, thetaRes: F64) {
    (IsNaN(a) || Gt(a, Zero))
    && (IsNaN(n) || Gt(n, Zero))
    && (IsNaN(thetaSat) || (Gt(thetaSat, Zero) && Lt(thetaSat, One)))
    && (IsNaN(thetaRes) || IsNaN(thetaSat) || Lt(thetaRes, thetaSat))
  }

  /** The match in `new` is the ordered check list: its outcome is the first
      failing group's error, or the model when all three groups pass. */
  lemma NewFollowsCheckOrder(a: F64, n: F64, thetaSat: F64, thetaRes: F64)
    ensures New(a, n, thetaSat, thetaRes)
         == Decide(Checks(a, n, thetaSat, thetaRes), VanGenuchtenModel(a, n, thetaSat, thetaRes))
  {
  }

  /** `new` succeeds exactly when every parameter is acceptable. */
  lemma NewOkIff(a: F64, n: F64, thetaSat: F64, thetaRes: F64)
    ensures New(a, n, thetaSat, thetaRes).Ok? <==> Acceptable(a, n, thetaSat, thetaRes)
  {
  }

  /** For finite arguments: `new` succeeds exactly when `a > 0`, `n > 0`,
      `0 < theta_sat < 1` and `theta_res < theta_sat`. */
  lemma NewOkIffFinite(a: real, n: real, thetaSat: real, thetaRes: real)
    ensures New(Finite(a), Finite(n), Finite(thetaSat), Finite(thetaRes)).Ok?
        <==> (a > 0.0 && n > 0.0 && 0.0 < thetaSat < 1.0 && thetaRes < thetaSat)
  {
  }

  /** A non-positive `a` or `n` is reported as `BadNegativeParameter`, whatever
      the water contents are. */
  lemma BadNegativeParameterFirst(a: F64, n: F64, thetaSat: F64, thetaRes: F64)
    requires Le(a, Zero) || Le(n, Zero)
    ensures New(a, n, thetaSat, thetaRes) == Err(BadNegativeParameter)
  {
  }

  /** With `a` and `n` accepted, a `theta_sat` outside (0, 1) is reported as
      `ParameterOutOfBounds`, even when `theta_res >= theta_sat` as well. */
  lemma OutOfBoundsBeforeDisagreement(a: F64, n: F64, thetaSat: F64, thetaRes: F64)
    requires !Le(a, Zero) && !Le(n, Zero)
    requires Le(thetaSat, Zero) || Ge(thetaSat, One)
    ensures New(a, n, thetaSat, thetaRes) == Err(ParameterOutOfBounds)
  {
  }

  /** `ThetaDisagreement` is returned exactly when the first two groups pass
      and `theta_res >= theta_sat`; both contents are then ordinary numbers,
      with `theta_sat` in (0, 1). */
  lemma ThetaDisagreementIff(a: F64, n: F64, thetaSat: F64, thetaRes: F64)
    ensures New(a, n, thetaSat, thetaRes) == Err(ThetaDisagreement)
        <==> (!Le(a, Zero) && !Le(n, Zero) && !Le(thetaSat, Zero) && !Ge(thetaSat, One)
              && Ge(thetaRes, thetaSat))
    ensures New(a, n, thetaSat, thetaRes) == Err(ThetaDisagreement)
        ==> Lt(Zero, thetaSat) && Lt(thetaSat, One) && Le(thetaSat, thetaRes)
  {
  }

  /** `theta_res` has no range of its own: with valid `a`, `n` and
      `theta_sat`, every finite `theta_res` below `theta_sat`, negative ones
      included, is accepted. */
  lemma ThetaResOnlyBoundedByThetaSat(a: F64, n: F64, thetaSat: real, thetaRes: real)
    requires Gt(a, Zero) && Gt(n, Zero) && 0.0 < thetaSat < 1.0
    requires thetaRes < thetaSat
    ensures New(a, n, Finite(thetaSat), Finite(thetaRes)).Ok?
  {
  }

  /** The boundary values themselves are rejected: `a = 0`, `n = 0`,
      `theta_sat = 0`, `theta_sat = 1` and `theta_res = theta_sat`, each for
      every input whose earlier groups pass (NaN included). */
  lemma BoundariesRejected(a: F64, n: F64, thetaSat: F64, thetaRes: F64)
    ensures New(Zero, n, thetaSat, thetaRes) == Err(BadNegativeParameter)
    ensures New(a, Zero, thetaSat, thetaRes) == Err(BadNegativeParameter)
    ensures !Le(a, Zero) && !Le(n, Zero) ==> New(a, n, Zero, thetaRes) == Err(ParameterOutOfBounds)
    ensures !Le(a, Zero) && !Le(n, Zero) ==> New(a, n, One, thetaRes) == Err(ParameterOutOfBounds)
    ensures !Le(a, Zero) && !Le(n, Zero) && Lt(Zero, thetaSat) && Lt(thetaSat, One)
        ==> New(a, n, thetaSat, thetaSat) == Err(ThetaDisagreement)
  {
  }

  /** NaN passes every guard, so a model made only of NaNs is accepted; so is
      an infinite `a`. */
  lemma NonFiniteAccepted(n: F64, thetaSat: F64, thetaRes: F64)
    ensures New(NaN, NaN, NaN, NaN) == Ok(VanGenuchtenModel(NaN, NaN, NaN, NaN))
    ensures New(PosInf, n, thetaSat, thetaRes).Ok? <==> New(One, n, thetaSat, thetaRes).Ok?
  {
  }

  /** Only `n <= 0` is rejected: with every other argument acceptable, any
      `n` in (0, 1] is accepted even though the retention curve needs `n > 1`. */
  lemma SmallNAccepted(a: F64, n: real, thetaSat: real, thetaRes: real)
    requires 0.0 < n <= 1.0
    requires Gt(a, Zero) && 0.0 < thetaSat < 1.0 && thetaRes < thetaSat
    ensures New(a, Finite(n), Finite(thetaSat), Finite(thetaRes)).Ok?
  {
  }

  /** The default parameters pass every check, and `new` on them yields the
      default model. */
  lemma DefaultIsValid()
    ensures Acceptable(Default().a, Default().n, Default().thetaSat, Default().thetaRes)
    ensures New(Finite(1479.5945), Finite(2.68), Finite(0.43), Finite(0.045)) == Ok(Default())
  {
  }
}
