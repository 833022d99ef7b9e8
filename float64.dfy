/** The part of IEEE 754 binary64 (Rust's `f64`) that the validators rely on:
    the four classes of value and the partial order of `<`, `<=`, `>=`, `>`
    and `==` on them. Every comparison that involves NaN is false. */
module Float64 {

  /** A double. `Finite(r)` stands for the double whose value is `r`; both
      zeros are `Finite(0.0)`, since they compare equal. */
  datatype F64 = Finite(r: real) | PosInf | NegInf | NaN

  const Zero: F64 := Finite(0.0)
  const One: F64 := Finite(1.0)

  predicate IsNaN(x: F64) { x.NaN? }

  /** Rust's `x <= y` on `f64`. */
  predicate Le(x: F64, y: F64) {
    match (x, y)
    case (NaN, _) => false
    case (_, NaN) => false
    case (NegInf, _) => true
    case (_, PosInf) => true
    case (Finite(u), Finite(v)) => u <= v
    case _ => false
  }

  /** Rust's `x < y` on `f64`. */
  predicate Lt(x: F64, y: F64) {
    match (x, y)
    case (NaN, _) => false
    case (_, NaN) => false
    case (NegInf, NegInf) => false
    case (NegInf, _) => true
    case (PosInf, _) => false
    case (_, PosInf) => true
    case (Finite(u), Finite(v)) => u < v
    case _ => false
  }

  /** Rust's `x >= y` on `f64`. */
  predicate Ge(x: F64, y: F64) { Le(y, x) }

  /** Rust's `x > y` on `f64`. */
  predicate Gt(x: F64, y: F64) { Lt(y, x) }

  /** Rust's `x == y` on `f64` (`PartialEq`): NaN equals nothing, itself included. */
  predicate Eq(x: F64, y: F64) { !IsNaN(x) && x == y }

  /** Away from NaN the order is total: `x <= y` fails exactly when `y < x`.
      With a NaN operand both are false. */
  lemma NotLeIsGt(x: F64, y: F64)
    ensures !Le(x, y) <==> (Lt(y, x) || IsNaN(x) || IsNaN(y))
  {
  }

  /** A comparison that holds rules out NaN on both sides. */
  lemma LeExcludesNaN(x: F64, y: F64)
    requires Le(x, y)
    ensures !IsNaN(x) && !IsNaN(y)
  {
  }
}
